/**
 * The `DAE` object (dae.py:179-409) at the level of its graph: the
 * configuration its constructor stores, the network `_create_network`
 * builds from the layer widths `[n_input] + hidden_dim`, and the
 * cross-entropy terms `_create_loss_optimizer` adds up.
 */
module Dae {
  import opened Wrappers
  import opened Graph
  import opened Layers
  import opened Walkback
  import Noise
  import Training

  // ---------------------------------------------------------------------
  // binary_crossentropy

  /** The default `offset` of `binary_crossentropy` (dae.py:18). */
  const ClipOffset: real := 0.0000000001

  /** The spacing of float32 values in [1/2, 1]: 2^-24. */
  const Ulp: real := 1.0 / 16777216.0

  /**
   * Rounding to float32 for a value in [1/2, 1], where the float32 values
   * are the multiples of 2^-24: the nearest of them. A tie, exactly halfway
   * between two of them, goes up rather than to the even neighbour.
   */
  function Float32Near1(v: real): (r: real)
    requires 0.5 <= v <= 1.0
    ensures (r / Ulp).Floor as real == r / Ulp
    ensures -Ulp / 2.0 < r - v <= Ulp / 2.0
  {
    var k := (v / Ulp + 0.5).Floor;
    assert k as real * Ulp / Ulp == k as real;
    k as real * Ulp
  }

  /** `tf.clip_by_value` on one element. */
  function Clip(v: real, lo: real, hi: real): (r: real)
    requires lo <= hi
    ensures lo <= r <= hi
    ensures lo <= v <= hi ==> r == v
    ensures v < lo ==> r == lo
    ensures hi < v ==> r == hi
  {
    if v < lo then lo else if hi < v then hi else v
  }

  /**
   * `tf.clip_by_value(output, lo, hi)`, the clipped output `output_` of
   * `binary_crossentropy` (dae.py:23): every element lies in [lo, hi], and
   * elements already there are kept.
   */
  function ClipOutput(output: Noise.Matrix, lo: real, hi: real): (r: Noise.Matrix)
    requires lo <= hi
    ensures Noise.SameShape(r, output)
    ensures forall i, j :: 0 <= i < |r| && 0 <= j < |r[i]| ==> lo <= r[i][j] <= hi
    ensures forall i, j :: 0 <= i < |r| && 0 <= j < |r[i]| && lo <= output[i][j] <= hi ==>
      r[i][j] == output[i][j]
  {
    seq(|output|, i requires 0 <= i < |output| =>
      seq(|output[i]|, j requires 0 <= j < |output[i]| => Clip(output[i][j], lo, hi)))
  }

  /**
   * The clip as written, `clip_by_value(output, offset, 1 - offset)` on a
   * float32 tensor: `1 - 1e-10` rounds to 1.0, so the upper bound does not
   * clip. `log(output_)` still gets a positive argument, but an element at
   * 1.0 (a saturated sigmoid) gives `log(1 - output_) = log(0)`.
   */
  lemma ClipAsWrittenSaturates(output: Noise.Matrix)
    ensures Float32Near1(1.0 - ClipOffset) == 1.0
    ensures var r := ClipOutput(output, ClipOffset, Float32Near1(1.0 - ClipOffset));
      forall i, j :: 0 <= i < |r| && 0 <= j < |r[i]| ==>
        0.0 < r[i][j] && (1.0 - r[i][j] == 0.0 <==> output[i][j] >= 1.0)
  {
    var hi := Float32Near1(1.0 - ClipOffset);
    var k := (hi / Ulp).Floor;
    assert k as real == hi / Ulp;
    assert 16777215.0 < k as real < 16777217.0;
  }

  /** The largest float32 value below 1, `1 - 2^-24`: an upper bound that float32 keeps below 1. */
  const ClipHigh: real := 1.0 - Ulp

  /**
   * With `ClipHigh` as the upper bound the bound is its own float32 value,
   * and both logarithms of `binary_crossentropy`, `log(output_)` and
   * `log(1 - output_)`, take strictly positive arguments.
   */
  lemma ClippedLogArguments(output: Noise.Matrix)
    ensures Float32Near1(ClipHigh) == ClipHigh
    ensures var r := ClipOutput(output, ClipOffset, ClipHigh);
      forall i, j :: 0 <= i < |r| && 0 <= j < |r[i]| ==> 0.0 < r[i][j] && 0.0 < 1.0 - r[i][j]
  {
    var k := (Float32Near1(ClipHigh) / Ulp).Floor;
    assert k as real == Float32Near1(ClipHigh) / Ulp;
    assert 16777214.0 < k as real < 16777216.0;
  }

  /** One `binary_crossentropy(output, target)` term of the cost. */
  datatype CrossEntropy = CrossEntropy(output: Node, target: Node)

  /** How many times `_autoencoder` calls `update_layers`. */
  function Steps(walkbacks: int): (n: nat)
    ensures n >= 1
    ensures walkbacks > 0 ==> n == walkbacks
  {
    if walkbacks > 0 then walkbacks else 1
  }

  /**
   * The terms of the cost (dae.py:399-405): with walkbacks, one
   * cross-entropy per chain entry against the input `x`; without, the single
   * reconstruction `y` against `x`.
   */
  function LossTerms(x: Node, y: Node, chain: seq<Node>, walkbacks: int): (terms: seq<CrossEntropy>)
    ensures walkbacks > 0 ==> |terms| == |chain|
    ensures walkbacks <= 0 ==> |terms| == 1 && terms[0].output == y
    ensures forall i :: 0 <= i < |terms| ==> terms[i].target == x
    ensures walkbacks > 0 ==> forall i :: 0 <= i < |terms| ==> terms[i].output == chain[i]
  {
    if walkbacks > 0 then seq(|chain|, i requires 0 <= i < |chain| => CrossEntropy(chain[i], x))
    else [CrossEntropy(y, x)]
  }

  /** The width of the latent code: the last hidden width, or the input width with no hidden layer. */
  function LatentWidth(nInput: nat, hiddenDim: seq<nat>): nat
  {
    if hiddenDim == [] then nInput else hiddenDim[|hiddenDim| - 1]
  }

  /**
   * Over all `update_layers` calls of a K-step network: K blocks of L
   * weights and 2L biases.
   */
  lemma {:induction false} RepeatedParameterCount(dims: seq<nat>, k: nat)
    requires |dims| >= 1
    ensures |Repeat(LayerVariables(dims), k)| == k * (3 * (|dims| - 1))
    ensures CountWeights(Repeat(LayerVariables(dims), k)) == k * (|dims| - 1)
    ensures CountBiases(Repeat(LayerVariables(dims), k)) == k * (2 * (|dims| - 1))
  {
    if k > 0 {
      var lv := LayerVariables(dims);
      RepeatedParameterCount(dims, k - 1);
      ParameterCount(dims);
      CountAppend(Repeat(lv, k - 1), lv);
      var L := |dims| - 1;
      assert k * (3 * L) == (k - 1) * (3 * L) + 3 * L;
      assert k * L == (k - 1) * L + L;
      assert k * (2 * L) == (k - 1) * (2 * L) + 2 * L;
    }
  }

  class DAE {
    const numEpochs: int
    const batchSize: int
    const hiddenDim: seq<nat>
    const nInput: nat
    const corruptType: string
    const corruptProb: real
    const corruptStd: real
    const walkbacks: int
    const logEvery: Option<int>

    /** The graph's variable store. */
    const graph: VariableStore
    /** The input placeholder `self.x`. */
    const x: Node

    var z: Node
    var y: Node
    var chain: seq<Node>
    var cost: seq<CrossEntropy>

    /** `layer_dim` of `_create_network` (dae.py:287-288). */
    function LayerDim(): (dims: seq<nat>)
      ensures |dims| == |hiddenDim| + 1 && dims[0] == nInput
      ensures dims[|dims| - 1] == LatentWidth(nInput, hiddenDim)
    {
      [nInput] + hiddenDim
    }

    /**
     * `DAE.__init__` (dae.py:246-285) up to the session: store the
     * configuration, create the input placeholder, build the network and its
     * cost. `defaultGraph` is TensorFlow's process-wide default graph: the
     * new variables follow whatever earlier instances put there.
     */
    constructor (defaultGraph: VariableStore, numEpochs: int, batchSize: int, hiddenDim: seq<nat>, nInput: nat,
                 corruptType: string, corruptProb: real, corruptStd: real, walkbacks: int, logEvery: Option<int>)
      modifies defaultGraph
      ensures this.numEpochs == numEpochs && this.batchSize == batchSize
      ensures this.hiddenDim == hiddenDim && this.nInput == nInput
      ensures this.corruptType == corruptType && this.corruptProb == corruptProb && this.corruptStd == corruptStd
      ensures this.walkbacks == walkbacks && this.logEvery == logEvery
      ensures graph == defaultGraph && x == Placeholder(nInput)
      ensures graph.variables == old(defaultGraph.variables) + Repeat(LayerVariables(LayerDim()), Steps(walkbacks))
      ensures walkbacks > 0 ==> |chain| == walkbacks && y == chain[walkbacks - 1]
      ensures walkbacks <= 0 ==> chain == []
      ensures |cost| == Steps(walkbacks)
      ensures forall i :: 0 <= i < |cost| ==>
        cost[i].target == x && Width(cost[i].output, graph.variables) == Some(nInput)
      ensures walkbacks <= 0 ==>
        y == Reconstruction(Corrupted(x, Noise.ParseNoiseKind(corruptType)), |old(defaultGraph.variables)|, |hiddenDim|)
      ensures walkbacks <= 0 ==>
        z == Encoded(Corrupted(x, Noise.ParseNoiseKind(corruptType)), |old(defaultGraph.variables)|, |hiddenDim|)
      ensures walkbacks > 0 ==>
        chain == WalkbackChain(x, Noise.ParseNoiseKind(corruptType), |old(defaultGraph.variables)|, LayerDim(), walkbacks)
      ensures walkbacks > 0 ==>
        z == LastLatent(x, Noise.ParseNoiseKind(corruptType), |old(defaultGraph.variables)|, LayerDim(), chain)
      ensures cost == LossTerms(x, y, chain, walkbacks)
      ensures Width(y, graph.variables) == Some(nInput)
      ensures Width(z, graph.variables) == Some(LatentWidth(nInput, hiddenDim))
    {
      this.numEpochs := numEpochs;
      this.batchSize := batchSize;
      this.hiddenDim := hiddenDim;
      this.nInput := nInput;
      this.corruptType := corruptType;
      this.corruptProb := corruptProb;
      this.corruptStd := corruptStd;
      this.walkbacks := walkbacks;
      this.logEvery := logEvery;
      graph := defaultGraph;
      x := Placeholder(nInput);
      new;
      CreateNetwork();
      CreateLossOptimizer();
    }

    /**
     * `_create_network` (dae.py:287-292): the latent code, reconstruction
     * and walkback chain of `_autoencoder(x, [n_input] + hidden_dim)`.
     */
    method CreateNetwork()
      requires x == Placeholder(nInput)
      modifies this, graph
      ensures cost == old(cost)
      ensures walkbacks <= 0 ==> chain == []
      ensures walkbacks <= 0 ==>
        y == Reconstruction(Corrupted(x, Noise.ParseNoiseKind(corruptType)), |old(graph.variables)|, |hiddenDim|)
      ensures walkbacks > 0 ==>
        chain == WalkbackChain(x, Noise.ParseNoiseKind(corruptType), |old(graph.variables)|, LayerDim(), walkbacks)
      ensures walkbacks > 0 ==> y == chain[walkbacks - 1]
      ensures walkbacks <= 0 ==>
        z == Encoded(Corrupted(x, Noise.ParseNoiseKind(corruptType)), |old(graph.variables)|, |hiddenDim|)
      ensures walkbacks > 0 ==>
        z == LastLatent(x, Noise.ParseNoiseKind(corruptType), |old(graph.variables)|, LayerDim(), chain)
      ensures graph.variables == old(graph.variables) + Repeat(LayerVariables(LayerDim()), Steps(walkbacks))
      ensures forall i :: 0 <= i < |chain| ==> Width(chain[i], graph.variables) == Some(nInput)
      ensures Width(y, graph.variables) == Some(nInput)
      ensures Width(z, graph.variables) == Some(LatentWidth(nInput, hiddenDim))
    {
      var layerDim := [nInput] + hiddenDim;
      z, y, chain := Autoencoder(graph, x, layerDim, Noise.ParseNoiseKind(corruptType), walkbacks);
      if walkbacks <= 0 {
        assert graph.variables == old(graph.variables) + Repeat(LayerVariables(layerDim), 1) by {
          assert Repeat(LayerVariables(layerDim), 1) == [] + LayerVariables(layerDim);
        }
      }
    }

    /**
     * `fit(X, shuffle, display_step)` (dae.py:477-520) on this instance: the
     * epoch count, batch size and fallback display step are the configured
     * `num_epochs`, `batch_size` and `log_every`. `perms` and `costs` stand
     * for the shuffles and the `partial_fit` results, as in `Training.Fit`.
     */
    method Fit<R>(X: seq<R>, shuffle: bool, perms: seq<seq<nat>>, costs: seq<seq<real>>, displayStep: Option<int>)
      returns (calls: seq<seq<R>>, logs: seq<Training.LogLine>)
      requires numEpochs > 0 ==> batchSize != 0
      requires numEpochs > 0 ==> Training.FitInputs(|X|, shuffle, perms, costs, batchSize, numEpochs)
      ensures numEpochs <= 0 ==> calls == [] && logs == []
      ensures numEpochs > 0 ==>
        Training.Fitted(calls, logs) ==
          Training.FitTrace(X, shuffle, perms, costs, batchSize, Training.DisplayStep(displayStep, logEvery), numEpochs)
      ensures forall i :: 0 <= i < |calls| ==> |calls[i]| == batchSize
    {
      calls, logs := Training.Fit(X, numEpochs, batchSize, shuffle, perms, costs, displayStep, logEvery);
    }

    /**
     * The cost of `_create_loss_optimizer` (dae.py:399-405): one term per
     * reconstruction the network trains on, each against the input.
     */
    method CreateLossOptimizer()
      modifies this
      ensures z == old(z) && y == old(y) && chain == old(chain)
      ensures cost == LossTerms(x, y, chain, walkbacks)
    {
      cost := LossTerms(x, y, chain, walkbacks);
    }
  }
}
