/**
 * The TensorFlow graph the autoencoder builds, at the level of shapes.
 *
 * A tensor is a symbolic node: the input placeholder, a corrupted copy, a
 * Bernoulli sample of a probability tensor, or one dense layer
 * `transfer(input @ W + b)` (or `input @ transpose(W) + b`) whose weight and
 * bias are trainable variables named by their position in the graph's
 * variable store. The transfer function and all values stay abstract: only
 * the column width of each tensor is computed; the batch dimension is the
 * placeholder's and every operation keeps it.
 */
module Graph {
  import opened Wrappers
  import Noise

  /** The shape of a `tf.Variable`: a weight matrix or a bias vector. */
  datatype Variable = Weight(rows: nat, cols: nat) | Bias(size: nat)

  datatype Node =
    | Placeholder(width: nat)                          // tf.placeholder([None, width])
    | Corrupted(input: Node, kind: Noise.NoiseKind)    // corrupt_input(input)
    | BernoulliSample(probs: Node)                     // binomial_vec(probs)
    | Dense(input: Node, weight: nat, transposed: bool, bias: nat)

  /**
   * The column width of a node, or None where TensorFlow's shape inference
   * rejects the graph: a `matmul` whose inner dimensions differ, a bias
   * whose width is not the layer's, or a variable that does not exist.
   */
  function Width(n: Node, vars: seq<Variable>): (w: Option<nat>)
    // a dense layer's input width is the inner dimension of its (possibly transposed) weight
    ensures n.Dense? && w.Some? ==> n.weight < |vars| && vars[n.weight].Weight?
    ensures n.Dense? && w.Some? ==>
      Width(n.input, vars) == Some(if n.transposed then vars[n.weight].cols else vars[n.weight].rows)
    // its output width is the weight's other dimension, and its bias has exactly that width
    ensures n.Dense? && w.Some? ==> w.value == if n.transposed then vars[n.weight].rows else vars[n.weight].cols
    ensures n.Dense? && w.Some? ==> n.bias < |vars| && vars[n.bias] == Bias(w.value)
  {
    match n
    case Placeholder(w) => Some(w)
    case Corrupted(x, _) => Width(x, vars)
    case BernoulliSample(p) => Width(p, vars)
    case Dense(x, w, t, b) =>
      if w < |vars| && b < |vars| && vars[w].Weight? && vars[b].Bias? then
        var nIn := if t then vars[w].cols else vars[w].rows;
        var nOut := if t then vars[w].rows else vars[w].cols;
        if Width(x, vars) == Some(nIn) && vars[b].size == nOut then Some(nOut) else None
      else None
  }

  /**
   * The converse of `Width`'s contract: TensorFlow rejects a dense layer
   * whose weight or bias is missing, whose input width is not the weight's
   * inner dimension, or whose bias is not as wide as its output.
   */
  lemma ShapeMismatch(x: Node, w: nat, t: bool, b: nat, vars: seq<Variable>)
    ensures (w >= |vars| || b >= |vars| || !vars[w].Weight? || !vars[b].Bias?) ==> Width(Dense(x, w, t, b), vars) == None
    ensures w < |vars| && vars[w].Weight? && Width(x, vars) != Some(if t then vars[w].cols else vars[w].rows) ==>
      Width(Dense(x, w, t, b), vars) == None
    ensures (w < |vars| && b < |vars| && vars[w].Weight? && vars[b].Bias? &&
             vars[b].size != (if t then vars[w].rows else vars[w].cols)) ==>
      Width(Dense(x, w, t, b), vars) == None
  {
  }

  /** Adding variables to the graph does not change the shape of a tensor built before. */
  lemma {:induction false} WidthExtend(n: Node, vars: seq<Variable>, more: seq<Variable>)
    requires Width(n, vars).Some?
    ensures Width(n, vars + more) == Width(n, vars)
  {
    match n
    case Placeholder(_) =>
    case Corrupted(x, _) => WidthExtend(x, vars, more);
    case BernoulliSample(p) => WidthExtend(p, vars, more);
    case Dense(x, w, t, b) =>
      WidthExtend(x, vars, more);
      assert (vars + more)[w] == vars[w] && (vars + more)[b] == vars[b];
  }

  /** The dense layers of a tensor, innermost first. */
  function DenseLayers(n: Node): (ls: seq<Node>)
    ensures forall i :: 0 <= i < |ls| ==> ls[i].Dense?
  {
    if n.Dense? then DenseLayers(n.input) + [n] else []
  }

  /** The variable positions lo .. lo+n-1. */
  function Block(lo: nat, n: nat): set<nat>
  {
    if n == 0 then {} else Block(lo, n - 1) + {lo + n - 1}
  }

  lemma {:induction false} BlockMembers(lo: nat, n: nat)
    ensures forall k :: k in Block(lo, n) <==> lo <= k < lo + n
  {
    if n > 0 {
      BlockMembers(lo, n - 1);
    }
  }

  /** The trainable variables the dense layers of `n` use: their weights and biases. */
  function LayerParameters(n: Node): set<nat>
  {
    if n.Dense? then LayerParameters(n.input) + {n.weight, n.bias} else {}
  }

  /** The tensor the dense layers of `n` are applied to. */
  function Source(n: Node): (s: Node)
    ensures !s.Dense?
  {
    if n.Dense? then Source(n.input) else n
  }

  /**
   * The graph's trainable variables in creation order. Each `tf.Variable`
   * call appends one; nothing is ever removed or reshaped.
   */
  class VariableStore {
    var variables: seq<Variable>

    constructor ()
      ensures variables == []
    {
      variables := [];
    }

    /** `tf.Variable(init(shape))`: a new variable, named by its position. */
    method NewVariable(v: Variable) returns (id: nat)
      modifies this
      ensures variables == old(variables) + [v]
      ensures id == |old(variables)| && variables[id] == v
    {
      id := |variables|;
      variables := variables + [v];
    }
  }
}
