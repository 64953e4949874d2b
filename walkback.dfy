/**
 * Walkback chain assembly in `_autoencoder` (dae.py:294-397).
 *
 * With `walkbacks = K > 0` the builder is called K times: step 0 on the
 * input, step i > 0 on a Bernoulli sample of step i-1's reconstruction,
 * which `update_layers` corrupts again. Each call allocates its own 3L
 * variables, so the K steps do not share weights. With K <= 0 the builder
 * is called once and the chain stays empty.
 */
module Walkback {
  import opened Wrappers
  import opened Graph
  import opened Layers
  import Noise

  /** `k` copies of `s`, one after another. */
  function Repeat<T>(s: seq<T>, k: nat): seq<T>
  {
    if k == 0 then [] else Repeat(s, k - 1) + s
  }

  lemma {:induction false} RepeatLength<T>(s: seq<T>, k: nat)
    ensures |Repeat(s, k)| == k * |s|
  {
    if k > 0 {
      RepeatLength(s, k - 1);
    }
  }

  /** `prefix` followed by `k` copies of `s`, grown one copy at a time. */
  function AppendCopies<T>(prefix: seq<T>, s: seq<T>, k: nat): seq<T>
  {
    if k == 0 then prefix else AppendCopies(prefix, s, k - 1) + s
  }

  lemma {:induction false} AppendCopiesRepeat<T>(prefix: seq<T>, s: seq<T>, k: nat)
    ensures AppendCopies(prefix, s, k) == prefix + Repeat(s, k)
  {
    if k > 0 {
      AppendCopiesRepeat(prefix, s, k - 1);
      assert prefix + Repeat(s, k) == (prefix + Repeat(s, k - 1)) + s;
    }
  }

  /**
   * The position of the first variable of walkback step k, for L hidden
   * layers: each earlier step allocated 3L variables.
   */
  function StepBase(base: nat, L: nat, k: nat): (b: nat)
    ensures b >= base
  {
    if k == 0 then base else StepBase(base, L, k - 1) + 3 * L
  }

  /** The closed form of StepBase. */
  lemma {:induction false} StepBaseFormula(base: nat, L: nat, k: nat)
    ensures StepBase(base, L, k) == base + 3 * L * k
  {
    if k > 0 {
      StepBaseFormula(base, L, k - 1);
    }
  }

  /** Later steps start at or after the end of earlier steps' blocks. */
  lemma {:induction false} StepsOrdered(base: nat, L: nat, i: nat, j: nat)
    requires i < j
    ensures StepBase(base, L, i) + 3 * L <= StepBase(base, L, j)
    decreases j - i
  {
    assert StepBase(base, L, i + 1) == StepBase(base, L, i) + 3 * L;
    if i + 1 < j {
      StepsOrdered(base, L, i + 1, j);
    }
  }

  /** Two blocks of n positions, the first ending before the second starts, are disjoint. */
  lemma BlocksDisjoint(lo1: nat, lo2: nat, n: nat)
    requires lo1 + n <= lo2
    ensures Block(lo1, n) !! Block(lo2, n)
  {
    BlockMembers(lo1, n);
    BlockMembers(lo2, n);
  }

  /**
   * Walkback steps do not share parameters: the reconstructions built by
   * two different `update_layers` calls use disjoint sets of variables.
   */
  lemma WalkbackStepsIndependent(c1: Node, c2: Node, base: nat, L: nat, i: nat, j: nat)
    requires !c1.Dense? && !c2.Dense? && i != j
    ensures LayerParameters(Reconstruction(c1, StepBase(base, L, i), L)) !!
            LayerParameters(Reconstruction(c2, StepBase(base, L, j), L))
  {
    var lo1, lo2 := StepBase(base, L, i), StepBase(base, L, j);
    DecodedParameters(c1, lo1, L, L);
    DecodedParameters(c2, lo2, L, L);
    if i < j {
      StepsOrdered(base, L, i, j);
      BlocksDisjoint(lo1, lo2, 3 * L);
    } else {
      StepsOrdered(base, L, j, i);
      BlocksDisjoint(lo2, lo1, 3 * L);
    }
  }

  /**
   * Step k > 0 of a walkback chain reconstructs, with the variables of block
   * k, the corrupted Bernoulli sample of step k-1's reconstruction.
   */
  ghost predicate ResamplesPrevious(chain: seq<Node>, k: nat, kind: Noise.NoiseKind, base: nat, layerDim: seq<nat>)
    requires 0 < k < |chain| && |layerDim| >= 1
  {
    var L := |layerDim| - 1;
    chain[k] == Reconstruction(Corrupted(BernoulliSample(chain[k - 1]), kind), StepBase(base, L, k), L)
  }

  /** The input of walkback step k: the network input, then a Bernoulli sample of the previous step. */
  function StepInput(x: Node, chain: seq<Node>, k: nat): Node
    requires k <= |chain|
  {
    if k == 0 then x else BernoulliSample(chain[k - 1])
  }

  /** The first k reconstructions of the walkback chain started at `x`. */
  function WalkbackChain(x: Node, kind: Noise.NoiseKind, base: nat, layerDim: seq<nat>, k: nat): (chain: seq<Node>)
    requires |layerDim| >= 1
    ensures |chain| == k
  {
    if k == 0 then []
    else
      var previous := WalkbackChain(x, kind, base, layerDim, k - 1);
      var L := |layerDim| - 1;
      previous + [Reconstruction(Corrupted(StepInput(x, previous, k - 1), kind), StepBase(base, L, k - 1), L)]
  }

  /**
   * The chain's shape: step 0 reconstructs the corrupted input, each later
   * step the corrupted Bernoulli sample of the step before, each with its
   * own block of variables.
   */
  lemma {:induction false} WalkbackChainSteps(x: Node, kind: Noise.NoiseKind, base: nat, layerDim: seq<nat>, k: nat)
    requires |layerDim| >= 1
    ensures var chain := WalkbackChain(x, kind, base, layerDim, k);
      k > 0 ==> chain[0] == Reconstruction(Corrupted(x, kind), base, |layerDim| - 1)
    ensures var chain := WalkbackChain(x, kind, base, layerDim, k);
      forall i :: 0 < i < k ==> ResamplesPrevious(chain, i, kind, base, layerDim)
  {
    if k > 0 {
      WalkbackChainSteps(x, kind, base, layerDim, k - 1);
      var previous := WalkbackChain(x, kind, base, layerDim, k - 1);
      var chain := WalkbackChain(x, kind, base, layerDim, k);
      forall i | 0 < i < k ensures ResamplesPrevious(chain, i, kind, base, layerDim) {
        assert chain[i - 1] == previous[i - 1];
        if i < k - 1 {
          assert chain[i] == previous[i];
          assert ResamplesPrevious(previous, i, kind, base, layerDim);
        }
      }
    }
  }

  /** After k update_layers calls the store has grown by k blocks of 3L variables. */
  lemma {:induction false} AppendCopiesLength(prefix: seq<Variable>, layerDim: seq<nat>, k: nat)
    requires |layerDim| >= 1
    ensures |AppendCopies(prefix, LayerVariables(layerDim), k)| == StepBase(|prefix|, |layerDim| - 1, k)
  {
    if k > 0 {
      ParameterCount(layerDim);
      AppendCopiesLength(prefix, layerDim, k - 1);
    }
  }

  /** The input of walkback step k has the network input's width in the store of k blocks. */
  lemma {:induction false} StepInputWidth(x: Node, kind: Noise.NoiseKind, prefix: seq<Variable>, layerDim: seq<nat>, k: nat)
    requires |layerDim| >= 1
    requires Width(x, prefix) == Some(layerDim[0])
    ensures Width(StepInput(x, WalkbackChain(x, kind, |prefix|, layerDim, k), k),
                  AppendCopies(prefix, LayerVariables(layerDim), k)) == Some(layerDim[0])
    decreases k, 1
  {
    if k > 0 {
      ChainElementWidth(x, kind, prefix, layerDim, k, k - 1);
    }
  }

  /**
   * Every reconstruction of a k-step chain has the input's width once the k
   * blocks of variables are in the store.
   */
  lemma {:induction false} ChainElementWidth(x: Node, kind: Noise.NoiseKind, prefix: seq<Variable>, layerDim: seq<nat>, k: nat, i: nat)
    requires |layerDim| >= 1
    requires Width(x, prefix) == Some(layerDim[0])
    requires i < k
    ensures Width(WalkbackChain(x, kind, |prefix|, layerDim, k)[i],
                  AppendCopies(prefix, LayerVariables(layerDim), k)) == Some(layerDim[0])
    decreases k, 0
  {
    var lv := LayerVariables(layerDim);
    var previous := WalkbackChain(x, kind, |prefix|, layerDim, k - 1);
    var before := AppendCopies(prefix, lv, k - 1);
    var chain := WalkbackChain(x, kind, |prefix|, layerDim, k);
    assert AppendCopies(prefix, lv, k) == before + lv;
    if i == k - 1 {
      var input := StepInput(x, previous, k - 1);
      StepInputWidth(x, kind, prefix, layerDim, k - 1);
      AppendCopiesLength(prefix, layerDim, k - 1);
      assert chain[i] == Reconstruction(Corrupted(input, kind), |before|, |layerDim| - 1);
      BuilderShapes(input, kind, before, before + lv, layerDim);
    } else {
      assert chain[i] == previous[i];
      ChainElementWidth(x, kind, prefix, layerDim, k - 1, i);
      WidthExtend(previous[i], before, lv);
    }
  }

  /**
   * The latent code of the step that produced the last reconstruction of
   * `chain`: the encoder output on that step's corrupted input.
   */
  function LastLatent(x: Node, kind: Noise.NoiseKind, base: nat, layerDim: seq<nat>, chain: seq<Node>): Node
    requires |layerDim| >= 1 && |chain| > 0
  {
    var L := |layerDim| - 1;
    Encoded(Corrupted(StepInput(x, chain, |chain| - 1), kind), StepBase(base, L, |chain| - 1), L)
  }

  /**
   * The last reconstruction of a walkback chain decodes, with its own step's
   * variables, that step's latent code.
   */
  lemma {:induction false} LatentDecodes(x: Node, kind: Noise.NoiseKind, base: nat, layerDim: seq<nat>, k: nat)
    requires |layerDim| >= 1 && k > 0
    ensures var L := |layerDim| - 1;
      var chain := WalkbackChain(x, kind, base, layerDim, k);
      chain[k - 1] == Decoded(LastLatent(x, kind, base, layerDim, chain), L, StepBase(base, L, k - 1), L)
  {
    var previous := WalkbackChain(x, kind, base, layerDim, k - 1);
    var chain := WalkbackChain(x, kind, base, layerDim, k);
    assert StepInput(x, chain, k - 1) == StepInput(x, previous, k - 1) by {
      if k > 1 {
        assert chain[k - 2] == previous[k - 2];
      }
    }
  }

  /**
   * What walkback step i finds and adds: its input has the input width in
   * the store of i blocks, whose length is StepBase; the step appends one
   * reconstruction to the chain and one block to the store.
   */
  lemma WalkbackStep(x: Node, kind: Noise.NoiseKind, prefix: seq<Variable>, layerDim: seq<nat>, i: nat)
    requires |layerDim| >= 1
    requires Width(x, prefix) == Some(layerDim[0])
    ensures var L := |layerDim| - 1;
      var chain := WalkbackChain(x, kind, |prefix|, layerDim, i);
      var vars := AppendCopies(prefix, LayerVariables(layerDim), i);
      && Width(StepInput(x, chain, i), vars) == Some(layerDim[0])
      && |vars| == StepBase(|prefix|, L, i)
      && WalkbackChain(x, kind, |prefix|, layerDim, i + 1) ==
           chain + [Reconstruction(Corrupted(StepInput(x, chain, i), kind), |vars|, L)]
      && LastLatent(x, kind, |prefix|, layerDim, WalkbackChain(x, kind, |prefix|, layerDim, i + 1)) ==
           Encoded(Corrupted(StepInput(x, chain, i), kind), |vars|, L)
      && AppendCopies(prefix, LayerVariables(layerDim), i + 1) == vars + LayerVariables(layerDim)
  {
    var L := |layerDim| - 1;
    var chain := WalkbackChain(x, kind, |prefix|, layerDim, i);
    var next := WalkbackChain(x, kind, |prefix|, layerDim, i + 1);
    var vars := AppendCopies(prefix, LayerVariables(layerDim), i);
    StepInputWidth(x, kind, prefix, layerDim, i);
    AppendCopiesLength(prefix, layerDim, i);
    assert next == chain + [Reconstruction(Corrupted(StepInput(x, chain, i), kind), |vars|, L)];
    assert StepInput(x, next, i) == StepInput(x, chain, i) by {
      if i > 0 {
        assert next[i - 1] == chain[i - 1];
      }
    }
  }

  /**
   * Shapes of a K-step chain once its K blocks are stored: every
   * reconstruction has the input width and the last latent code the width
   * of the last hidden layer.
   */
  lemma WalkbackShapes(x: Node, kind: Noise.NoiseKind, prefix: seq<Variable>, layerDim: seq<nat>, k: nat)
    requires |layerDim| >= 1 && k > 0
    requires Width(x, prefix) == Some(layerDim[0])
    ensures var chain := WalkbackChain(x, kind, |prefix|, layerDim, k);
      var vars := prefix + Repeat(LayerVariables(layerDim), k);
      && (forall i :: 0 <= i < k ==> Width(chain[i], vars) == Some(layerDim[0]))
      && Width(LastLatent(x, kind, |prefix|, layerDim, chain), vars) == Some(layerDim[|layerDim| - 1])
  {
    var lv := LayerVariables(layerDim);
    var chain := WalkbackChain(x, kind, |prefix|, layerDim, k);
    var previous := WalkbackChain(x, kind, |prefix|, layerDim, k - 1);
    AppendCopiesRepeat(prefix, lv, k);
    forall i | 0 <= i < k ensures Width(chain[i], AppendCopies(prefix, lv, k)) == Some(layerDim[0]) {
      ChainElementWidth(x, kind, prefix, layerDim, k, i);
    }
    var input := StepInput(x, previous, k - 1);
    assert StepInput(x, chain, k - 1) == input by {
      if k > 1 {
        assert chain[k - 2] == previous[k - 2];
      }
    }
    StepInputWidth(x, kind, prefix, layerDim, k - 1);
    AppendCopiesLength(prefix, layerDim, k - 1);
    assert AppendCopies(prefix, lv, k) == AppendCopies(prefix, lv, k - 1) + lv;
    BuilderShapes(input, kind, AppendCopies(prefix, lv, k - 1), AppendCopies(prefix, lv, k), layerDim);
  }

  /**
   * The walkback loop of `_autoencoder` (dae.py:387-392): K calls of
   * `update_layers`, the first on the input, each later one on a Bernoulli
   * sample of the previous reconstruction, collecting the reconstructions.
   */
  method WalkbackLoop(g: VariableStore, layerInput: Node, layerDim: seq<nat>, kind: Noise.NoiseKind, walkbacks: nat)
    returns (z: Node, y: Node, chain: seq<Node>)
    requires |layerDim| >= 1 && walkbacks > 0
    requires Width(layerInput, g.variables) == Some(layerDim[0])
    modifies g
    ensures chain == WalkbackChain(layerInput, kind, |old(g.variables)|, layerDim, walkbacks)
    ensures g.variables == AppendCopies(old(g.variables), LayerVariables(layerDim), walkbacks)
    ensures y == chain[walkbacks - 1]
    ensures z == LastLatent(layerInput, kind, |old(g.variables)|, layerDim, chain)
  {
    chain := [];
    z, y := layerInput, layerInput;  // both are assigned by the first step
    var x := layerInput;
    for i := 0 to walkbacks
      invariant chain == WalkbackChain(layerInput, kind, |old(g.variables)|, layerDim, i)
      invariant g.variables == AppendCopies(old(g.variables), LayerVariables(layerDim), i)
      invariant x == StepInput(layerInput, chain, i)
      invariant i > 0 ==> y == chain[i - 1]
      invariant i > 0 ==> z == LastLatent(layerInput, kind, |old(g.variables)|, layerDim, chain)
    {
      WalkbackStep(layerInput, kind, old(g.variables), layerDim, i);
      ghost var next := WalkbackChain(layerInput, kind, |old(g.variables)|, layerDim, i + 1);
      y, z := UpdateLayers(g, x, layerDim, kind);
      chain := chain + [y];
      assert chain == next;
      x := BernoulliSample(y);  // sample from p(X|...)
    }
  }

  /**
   * `_autoencoder(layer_input, layer_dim)` (dae.py:385-397). Returns the
   * latent code `z` and reconstruction `y` of the last step and the chain of
   * per-step reconstructions.
   */
  method Autoencoder(g: VariableStore, layerInput: Node, layerDim: seq<nat>, kind: Noise.NoiseKind, walkbacks: int)
    returns (z: Node, y: Node, chain: seq<Node>)
    requires |layerDim| >= 1
    requires Width(layerInput, g.variables) == Some(layerDim[0])
    modifies g
    ensures walkbacks <= 0 ==> chain == []
    ensures walkbacks <= 0 ==> g.variables == old(g.variables) + LayerVariables(layerDim)
    ensures walkbacks <= 0 ==> z == Encoded(Corrupted(layerInput, kind), |old(g.variables)|, |layerDim| - 1)
    ensures walkbacks <= 0 ==> y == Reconstruction(Corrupted(layerInput, kind), |old(g.variables)|, |layerDim| - 1)
    ensures walkbacks > 0 ==> chain == WalkbackChain(layerInput, kind, |old(g.variables)|, layerDim, walkbacks)
    ensures walkbacks > 0 ==> g.variables == old(g.variables) + Repeat(LayerVariables(layerDim), walkbacks)
    ensures walkbacks > 0 ==> y == chain[walkbacks - 1]
    ensures walkbacks > 0 ==> z == LastLatent(layerInput, kind, |old(g.variables)|, layerDim, chain)
    ensures forall i :: 0 <= i < |chain| ==> Width(chain[i], g.variables) == Some(layerDim[0])
    ensures Width(y, g.variables) == Some(layerDim[0])
    ensures Width(z, g.variables) == Some(layerDim[|layerDim| - 1])
  {
    // Define p(X|...).
    if walkbacks > 0 {
      z, y, chain := WalkbackLoop(g, layerInput, layerDim, kind, walkbacks);
      AppendCopiesRepeat(old(g.variables), LayerVariables(layerDim), walkbacks);
      WalkbackShapes(layerInput, kind, old(g.variables), layerDim, walkbacks);
    } else {
      chain := [];
      y, z := UpdateLayers(g, layerInput, layerDim, kind);
      BuilderShapes(layerInput, kind, old(g.variables), g.variables, layerDim);
    }
  }
}
