/**
 * The tied-weight layer builder `update_layers` (dae.py:339-383), at the
 * level of shapes and trainable variables.
 *
 * For widths `dims = [n_input, h1, ..., hL]` one call corrupts its input,
 * stacks L encoder layers, each with a fresh weight [dims[i], dims[i+1]] and
 * bias [dims[i+1]], reverses the list of encoder weights and stacks L
 * decoder layers, layer i using the transpose of encoder weight L-1-i and a
 * fresh bias of width dims[L-1-i]. Variables are named by their position in
 * the graph's store; a call that starts at position `base` allocates
 * W0, b0, W1, b1, ..., W(L-1), b(L-1), then the L decoder biases.
 */
module Layers {
  import opened Wrappers
  import opened Graph
  import Noise

  function Reverse<T>(s: seq<T>): (r: seq<T>)
    ensures |r| == |s|
    ensures forall i :: 0 <= i < |s| ==> r[i] == s[|s| - 1 - i]
  {
    if s == [] then [] else Reverse(s[1..]) + [s[0]]
  }

  /** The encoder's variables for widths `dims`, in creation order. */
  function EncoderVariables(dims: seq<nat>): seq<Variable>
  {
    if |dims| <= 1 then []
    else EncoderVariables(dims[..|dims| - 1]) + [Weight(dims[|dims| - 2], dims[|dims| - 1]), Bias(dims[|dims| - 1])]
  }

  /** The decoder's biases: one per width of `dims[:-1][::-1]`. */
  function DecoderVariables(dims: seq<nat>): seq<Variable>
    requires |dims| >= 1
  {
    seq(|dims| - 1, i requires 0 <= i < |dims| - 1 => Bias(dims[|dims| - 2 - i]))
  }

  /** Everything one call of `update_layers` allocates. */
  function LayerVariables(dims: seq<nat>): seq<Variable>
    requires |dims| >= 1
  {
    EncoderVariables(dims) + DecoderVariables(dims)
  }

  /** `vs` sits in the store `vars` from position `base` on. */
  predicate StoredAt(vars: seq<Variable>, base: nat, vs: seq<Variable>)
  {
    base + |vs| <= |vars| && forall k :: 0 <= k < |vs| ==> vars[base + k] == vs[k]
  }

  /** The encoder output after `i` layers, starting from the corrupted input `c`. */
  function Encoded(c: Node, base: nat, i: nat): Node
  {
    if i == 0 then c
    else Dense(Encoded(c, base, i - 1), base + 2 * (i - 1), false, base + 2 * (i - 1) + 1)
  }

  /** The decoder output after `i` of `L` layers, starting from the latent code `z`. */
  function Decoded(z: Node, L: nat, base: nat, i: nat): Node
    requires i <= L
  {
    if i == 0 then z
    else Dense(Decoded(z, L, base, i - 1), base + 2 * (L - i), true, base + 2 * L + (i - 1))
  }

  /** The reconstruction `y` of one `update_layers` call with `L` layers. */
  function Reconstruction(c: Node, base: nat, L: nat): Node
  {
    Decoded(Encoded(c, base, L), L, base, L)
  }

  function CountWeights(vs: seq<Variable>): nat
  {
    if vs == [] then 0 else CountWeights(vs[..|vs| - 1]) + (if vs[|vs| - 1].Weight? then 1 else 0)
  }

  function CountBiases(vs: seq<Variable>): nat
  {
    if vs == [] then 0 else CountBiases(vs[..|vs| - 1]) + (if vs[|vs| - 1].Bias? then 1 else 0)
  }

  // ---------------------------------------------------------------------
  // The allocation layout

  /** Encoder variable 2k is weight k of shape [dims[k], dims[k+1]]; 2k+1 is its bias. */
  lemma {:induction false} EncoderVariablesAt(dims: seq<nat>)
    requires |dims| >= 1
    ensures |EncoderVariables(dims)| == 2 * (|dims| - 1)
    ensures forall k :: 0 <= k < |dims| - 1 ==>
      EncoderVariables(dims)[2 * k] == Weight(dims[k], dims[k + 1]) &&
      EncoderVariables(dims)[2 * k + 1] == Bias(dims[k + 1])
  {
    if |dims| > 1 {
      var front := dims[..|dims| - 1];
      EncoderVariablesAt(front);
      assert forall k :: 0 <= k < |front| ==> front[k] == dims[k];
    }
  }

  /** Decoder layer i allocates one bias, of width `layer_dim[:-1][::-1][i]`, and no weight. */
  lemma DecoderVariablesAt(dims: seq<nat>)
    requires |dims| >= 1
    ensures |DecoderVariables(dims)| == |dims| - 1
    ensures forall i :: 0 <= i < |dims| - 1 ==> DecoderVariables(dims)[i] == Bias(Reverse(dims[..|dims| - 1])[i])
  {
    var widths := Reverse(dims[..|dims| - 1]);
    forall i | 0 <= i < |dims| - 1
      ensures DecoderVariables(dims)[i] == Bias(widths[i])
    {
      assert widths[i] == dims[..|dims| - 1][|dims| - 2 - i];
    }
  }

  lemma {:induction false} CountAppend(a: seq<Variable>, b: seq<Variable>)
    ensures CountWeights(a + b) == CountWeights(a) + CountWeights(b)
    ensures CountBiases(a + b) == CountBiases(a) + CountBiases(b)
  {
    if b != [] {
      var front := b[..|b| - 1];
      CountAppend(a, front);
      assert (a + b)[..|a + b| - 1] == a + front;
      assert (a + b)[|a + b| - 1] == b[|b| - 1];
      assert a + b != [];
    } else {
      assert a + b == a;
    }
  }

  lemma {:induction false} EncoderCounts(dims: seq<nat>)
    requires |dims| >= 1
    ensures CountWeights(EncoderVariables(dims)) == |dims| - 1
    ensures CountBiases(EncoderVariables(dims)) == |dims| - 1
  {
    if |dims| > 1 {
      var front := dims[..|dims| - 1];
      EncoderCounts(front);
      var pair := [Weight(dims[|dims| - 2], dims[|dims| - 1]), Bias(dims[|dims| - 1])];
      CountAppend(EncoderVariables(front), pair);
      assert pair[..1] == [pair[0]] && [pair[0]][..0] == [];
      assert CountWeights([pair[0]]) == 1 && CountBiases([pair[0]]) == 0;
      assert CountWeights(pair) == 1 && CountBiases(pair) == 1;
    }
  }

  lemma {:induction false} AllBiasesCount(vs: seq<Variable>)
    requires forall k :: 0 <= k < |vs| ==> vs[k].Bias?
    ensures CountWeights(vs) == 0 && CountBiases(vs) == |vs|
  {
    if vs != [] {
      AllBiasesCount(vs[..|vs| - 1]);
    }
  }

  /**
   * Parameter count: with L hidden layers one call allocates L weight
   * matrices, shared by encoder and decoder, and 2L bias vectors.
   */
  lemma ParameterCount(dims: seq<nat>)
    requires |dims| >= 1
    ensures |LayerVariables(dims)| == 3 * (|dims| - 1)
    ensures CountWeights(LayerVariables(dims)) == |dims| - 1
    ensures CountBiases(LayerVariables(dims)) == 2 * (|dims| - 1)
  {
    EncoderVariablesAt(dims);
    EncoderCounts(dims);
    AllBiasesCount(DecoderVariables(dims));
    CountAppend(EncoderVariables(dims), DecoderVariables(dims));
  }

  // ---------------------------------------------------------------------
  // Shapes chain

  /** Encoder layer i maps width dims[i-1] to dims[i]; the latent width is the last one. */
  lemma {:induction false} EncodedWidth(c: Node, base: nat, dims: seq<nat>, vars: seq<Variable>, i: nat)
    requires i < |dims|
    requires Width(c, vars) == Some(dims[0])
    requires StoredAt(vars, base, EncoderVariables(dims))
    ensures Width(Encoded(c, base, i), vars) == Some(dims[i])
  {
    if i > 0 {
      EncodedWidth(c, base, dims, vars, i - 1);
      EncoderVariablesAt(dims);
      assert vars[base + 2 * (i - 1)] == Weight(dims[i - 1], dims[i]);
      assert vars[base + 2 * (i - 1) + 1] == Bias(dims[i]);
    }
  }

  /**
   * Decoder layer i maps width dims[L-i] back to dims[L-1-i] through the
   * transposed encoder weight: the decoder ends at the input width.
   */
  lemma {:induction false} DecodedWidth(z: Node, L: nat, base: nat, dims: seq<nat>, vars: seq<Variable>, i: nat)
    requires |dims| == L + 1 && i <= L
    requires Width(z, vars) == Some(dims[L])
    requires StoredAt(vars, base, LayerVariables(dims))
    ensures Width(Decoded(z, L, base, i), vars) == Some(dims[L - i])
  {
    if i > 0 {
      DecodedWidth(z, L, base, dims, vars, i - 1);
      EncoderVariablesAt(dims);
      DecoderVariablesAt(dims);
      var layers := LayerVariables(dims);
      assert vars[base + 2 * (L - i)] == layers[2 * (L - i)] == Weight(dims[L - i], dims[L - i + 1]);
      assert vars[base + 2 * L + (i - 1)] == layers[2 * L + (i - 1)] == Bias(dims[L - i]);
    }
  }

  // ---------------------------------------------------------------------
  // Tied weights

  lemma {:induction false} EncodedLayers(c: Node, base: nat, i: nat)
    requires !c.Dense?
    ensures Source(Encoded(c, base, i)) == c
    ensures |DenseLayers(Encoded(c, base, i))| == i
    ensures forall k :: 0 <= k < i ==>
      DenseLayers(Encoded(c, base, i))[k] == Dense(Encoded(c, base, k), base + 2 * k, false, base + 2 * k + 1)
  {
    if i > 0 {
      EncodedLayers(c, base, i - 1);
    }
  }

  lemma {:induction false} DecodedLayers(z: Node, L: nat, base: nat, i: nat)
    requires i <= L
    ensures Source(Decoded(z, L, base, i)) == Source(z)
    ensures |DenseLayers(Decoded(z, L, base, i))| == |DenseLayers(z)| + i
    ensures DenseLayers(Decoded(z, L, base, i))[..|DenseLayers(z)|] == DenseLayers(z)
    ensures forall k :: 0 <= k < i ==>
      DenseLayers(Decoded(z, L, base, i))[|DenseLayers(z)| + k] ==
        Dense(Decoded(z, L, base, k), base + 2 * (L - 1 - k), true, base + 2 * L + k)
  {
    if i > 0 {
      DecodedLayers(z, L, base, i - 1);
    }
  }

  /**
   * Weight tying in one reconstruction: of its 2L dense layers, decoder
   * layer i reuses the weight of encoder layer L-1-i, transposed; the L
   * encoder weights are distinct, every layer has its own bias, no bias is a
   * weight, and every parameter lies in the call's own block of 3L variables.
   */
  lemma TiedWeights(c: Node, base: nat, L: nat)
    requires !c.Dense?
    ensures Source(Reconstruction(c, base, L)) == c
    ensures |DenseLayers(Reconstruction(c, base, L))| == 2 * L
    ensures forall i :: 0 <= i < 2 * L ==>
      var ls := DenseLayers(Reconstruction(c, base, L)); ls[i].transposed <==> L <= i
    ensures forall i :: L <= i < 2 * L ==>
      var ls := DenseLayers(Reconstruction(c, base, L)); ls[i].weight == ls[2 * L - 1 - i].weight
    ensures forall i, j :: 0 <= i < j < L ==>
      var ls := DenseLayers(Reconstruction(c, base, L)); ls[i].weight != ls[j].weight
    ensures forall i, j :: 0 <= i < j < 2 * L ==>
      var ls := DenseLayers(Reconstruction(c, base, L)); ls[i].bias != ls[j].bias
    ensures forall i, j :: 0 <= i < 2 * L && 0 <= j < 2 * L ==>
      var ls := DenseLayers(Reconstruction(c, base, L)); ls[i].weight != ls[j].bias
    ensures forall i :: 0 <= i < 2 * L ==>
      var ls := DenseLayers(Reconstruction(c, base, L));
      base <= ls[i].weight < base + 3 * L && base <= ls[i].bias < base + 3 * L
  {
    var z := Encoded(c, base, L);
    EncodedLayers(c, base, L);
    DecodedLayers(z, L, base, L);
    var ls := DenseLayers(Reconstruction(c, base, L));
    forall i | 0 <= i < 2 * L
      ensures ls[i].transposed <==> L <= i
      ensures ls[i].weight == if i < L then base + 2 * i else base + 2 * (2 * L - 1 - i)
      ensures ls[i].bias == if i < L then base + 2 * i + 1 else base + L + i
    {
      if i < L {
        assert ls[i] == DenseLayers(z)[i];
      } else {
        assert ls[L + (i - L)] == Dense(Decoded(z, L, base, i - L), base + 2 * (L - 1 - (i - L)), true, base + 2 * L + (i - L));
      }
    }
  }

  /** The encoder's first i layers use exactly the variables base .. base+2i-1. */
  lemma {:induction false} EncodedParameters(c: Node, base: nat, i: nat)
    requires !c.Dense?
    ensures LayerParameters(Encoded(c, base, i)) == Block(base, 2 * i)
  {
    if i > 0 {
      EncodedParameters(c, base, i - 1);
      assert Block(base, 2 * i) == Block(base, 2 * (i - 1)) + {base + 2 * (i - 1)} + {base + 2 * (i - 1) + 1};
    }
  }

  /**
   * The variables one reconstruction uses are exactly the 3L variables its
   * `update_layers` call allocated: decoder layers add only their biases.
   */
  lemma {:induction false} DecodedParameters(c: Node, base: nat, L: nat, i: nat)
    requires !c.Dense? && i <= L
    ensures LayerParameters(Decoded(Encoded(c, base, L), L, base, i)) == Block(base, 2 * L + i)
  {
    if i > 0 {
      DecodedParameters(c, base, L, i - 1);
      var before := LayerParameters(Decoded(Encoded(c, base, L), L, base, i - 1));
      BlockMembers(base, 2 * L + i - 1);
      assert base + 2 * (L - i) in before;
      assert before + {base + 2 * (L - i), base + 2 * L + (i - 1)} == before + {base + 2 * L + (i - 1)};
    } else {
      EncodedParameters(c, base, L);
    }
  }

  // ---------------------------------------------------------------------
  // The builder

  /** One encoder iteration: the input width is dims[i] and the store grows by W_i, b_i. */
  lemma EncoderStep(c: Node, before: seq<Variable>, vars: seq<Variable>, dims: seq<nat>, i: nat)
    requires i + 1 < |dims|
    requires Width(c, before) == Some(dims[0])
    requires vars == before + EncoderVariables(dims[..i + 1])
    ensures Width(Encoded(c, |before|, i), vars) == Some(dims[i])
    ensures |vars| == |before| + 2 * i
    ensures before + EncoderVariables(dims[..i + 2]) ==
      vars + [Weight(dims[i], dims[i + 1])] + [Bias(dims[i + 1])]
  {
    EncoderVariablesAt(dims[..i + 1]);
    WidthExtend(c, before, EncoderVariables(dims[..i + 1]));
    EncodedWidth(c, |before|, dims[..i + 1], vars, i);
    assert dims[..i + 2][..i + 1] == dims[..i + 1];
  }

  /** One decoder iteration allocates the bias for width `dims[:-1][::-1][i]`. */
  lemma DecoderStep(encoded: seq<Variable>, vars: seq<Variable>, dims: seq<nat>, i: nat)
    requires i + 1 < |dims|
    requires vars == encoded + DecoderVariables(dims)[..i]
    ensures encoded + DecoderVariables(dims)[..i + 1] == vars + [Bias(Reverse(dims[..|dims| - 1])[i])]
  {
    assert DecoderVariables(dims)[..i + 1] == DecoderVariables(dims)[..i] + [Bias(Reverse(dims[..|dims| - 1])[i])];
  }

  /** Once all 3L variables are allocated: the latent width is dims[L], the output width dims[0]. */
  lemma BuilderShapes(x: Node, kind: Noise.NoiseKind, before: seq<Variable>, vars: seq<Variable>, dims: seq<nat>)
    requires |dims| >= 1
    requires Width(x, before) == Some(dims[0])
    requires vars == before + LayerVariables(dims)
    ensures Width(Encoded(Corrupted(x, kind), |before|, |dims| - 1), vars) == Some(dims[|dims| - 1])
    ensures Width(Reconstruction(Corrupted(x, kind), |before|, |dims| - 1), vars) == Some(dims[0])
  {
    var L, base := |dims| - 1, |before|;
    EncoderVariablesAt(dims);
    DecoderVariablesAt(dims);
    WidthExtend(x, before, LayerVariables(dims));
    var layers := LayerVariables(dims);
    assert StoredAt(vars, base, EncoderVariables(dims)) by {
      forall k | 0 <= k < 2 * L ensures vars[base + k] == EncoderVariables(dims)[k] {
        assert vars[base + k] == layers[k];
      }
    }
    EncodedWidth(Corrupted(x, kind), base, dims, vars, L);
    assert StoredAt(vars, base, layers) by {
      forall k | 0 <= k < 3 * L ensures vars[base + k] == layers[k] {
      }
    }
    DecodedWidth(Encoded(Corrupted(x, kind), base, L), L, base, dims, vars, L);
  }

  /**
   * Encoder layer i of `update_layers` (dae.py:361-366): reads the width of
   * its input, allocates a weight of that many rows and `layer_dim[i + 1]`
   * columns and a bias of `layer_dim[i + 1]`, and applies `tf.matmul(x, W) + b`.
   */
  method EncoderLayer(g: VariableStore, ghost before: seq<Variable>, c: Node, layerDim: seq<nat>, i: nat, input: Node)
    returns (w: nat, output: Node)
    requires i + 1 < |layerDim|
    requires Width(c, before) == Some(layerDim[0])
    requires g.variables == before + EncoderVariables(layerDim[..i + 1])
    requires input == Encoded(c, |before|, i)
    modifies g
    ensures g.variables == before + EncoderVariables(layerDim[..i + 2])
    ensures w == |before| + 2 * i
    ensures output == Encoded(c, |before|, i + 1)
  {
    EncoderStep(c, before, g.variables, layerDim, i);
    var nInput := Width(input, g.variables).value;
    w := g.NewVariable(Weight(nInput, layerDim[i + 1]));
    var b := g.NewVariable(Bias(layerDim[i + 1]));
    output := Dense(input, w, false, b);
  }

  /**
   * The encoder half of `update_layers` (dae.py:359-366): one dense layer
   * per hidden width, each with a fresh weight and bias. Returns the latent
   * code and the list of encoder weights in creation order.
   */
  method BuildEncoder(g: VariableStore, c: Node, layerDim: seq<nat>) returns (z: Node, encoder: seq<nat>)
    requires |layerDim| >= 1
    requires Width(c, g.variables) == Some(layerDim[0])
    modifies g
    ensures g.variables == old(g.variables) + EncoderVariables(layerDim)
    ensures z == Encoded(c, |old(g.variables)|, |layerDim| - 1)
    ensures |encoder| == |layerDim| - 1
    ensures forall k :: 0 <= k < |encoder| ==> encoder[k] == |old(g.variables)| + 2 * k
  {
    ghost var base := |g.variables|;
    var layerInput := c;
    var outputs := layerDim[1..];
    encoder := [];
    for i := 0 to |outputs|
      invariant g.variables == old(g.variables) + EncoderVariables(layerDim[..i + 1])
      invariant |encoder| == i && forall k :: 0 <= k < i ==> encoder[k] == base + 2 * k
      invariant layerInput == Encoded(c, base, i)
    {
      var w;
      w, layerInput := EncoderLayer(g, old(g.variables), c, layerDim, i, layerInput);
      encoder := encoder + [w];
    }
    assert layerDim[..|layerDim|] == layerDim;
    z := layerInput;
  }

  /**
   * The decoder half of `update_layers` (dae.py:371-378): layer i multiplies
   * by the transpose of `encoder[i]` and adds a fresh bias of width
   * `dims[:-1][::-1][i]`.
   */
  method BuildDecoder(g: VariableStore, z: Node, encoder: seq<nat>, layerDim: seq<nat>) returns (y: Node)
    requires |layerDim| >= 1 && |encoder| == |layerDim| - 1
    requires |g.variables| >= 2 * |encoder|
    requires forall k :: 0 <= k < |encoder| ==>
      encoder[k] == |g.variables| - 2 * |encoder| + 2 * (|encoder| - 1 - k)
    modifies g
    ensures g.variables == old(g.variables) + DecoderVariables(layerDim)
    ensures y == Decoded(z, |encoder|, |old(g.variables)| - 2 * |encoder|, |encoder|)
  {
    ghost var L := |encoder|;
    ghost var base := |g.variables| - 2 * L;
    var layerInput := z;
    var decoderDims := Reverse(layerDim[..|layerDim| - 1]);
    for i := 0 to |decoderDims|
      invariant g.variables == old(g.variables) + DecoderVariables(layerDim)[..i]
      invariant layerInput == Decoded(z, L, base, i)
    {
      DecoderStep(old(g.variables), g.variables, layerDim, i);
      var w := encoder[i];
      var b := g.NewVariable(Bias(decoderDims[i]));
      layerInput := Dense(layerInput, w, true, b);
    }
    assert DecoderVariables(layerDim)[..L] == DecoderVariables(layerDim);
    y := layerInput;
  }

  /**
   * `update_layers(x)` (dae.py:339-383): corrupt `x`, build the encoder,
   * reverse the list of its weights, build the decoder on their transposes.
   * Returns the reconstruction `y` and the latent code `z`.
   */
  method UpdateLayers(g: VariableStore, x: Node, layerDim: seq<nat>, kind: Noise.NoiseKind) returns (y: Node, z: Node)
    requires |layerDim| >= 1
    requires Width(x, g.variables) == Some(layerDim[0])
    modifies g
    ensures g.variables == old(g.variables) + LayerVariables(layerDim)
    ensures z == Encoded(Corrupted(x, kind), |old(g.variables)|, |layerDim| - 1)
    ensures y == Reconstruction(Corrupted(x, kind), |old(g.variables)|, |layerDim| - 1)
  {
    var layerInput := Corrupted(x, kind);
    var encoder;
    z, encoder := BuildEncoder(g, layerInput, layerDim);
    // Latent representation is z.
    EncoderVariablesAt(layerDim);
    encoder := Reverse(encoder);
    y := BuildDecoder(g, z, encoder, layerDim);
  }
}
