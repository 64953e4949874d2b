/**
 * Bernoulli masks and the three corruption models of the denoising
 * autoencoder (dae.py:78-176, 312-337).
 *
 * Tensors are matrices of exact reals. Every random draw is a parameter:
 * `tf.random_uniform(minval=0, maxval=1)` becomes a matrix of draws in
 * [0, 1), and `tf.random_normal(mean=0, stddev=std)` becomes a matrix of
 * standard-normal draws `z`, which TensorFlow scales as `z * std + mean`.
 */
module Noise {

  type Matrix = seq<seq<real>>

  /** Two tensors of the same shape (rows and, row by row, columns). */
  predicate SameShape(a: Matrix, b: Matrix)
  {
    |a| == |b| && forall i :: 0 <= i < |a| ==> |a[i]| == |b[i]|
  }

  /** Every element is 0 or 1. */
  predicate IsBinary(m: Matrix)
  {
    forall i, j :: 0 <= i < |m| && 0 <= j < |m[i]| ==> m[i][j] == 0.0 || m[i][j] == 1.0
  }

  /** What `tf.random_uniform(minval=0, maxval=1)` can return: draws in [0, 1). */
  predicate UnitDraws(d: Matrix)
  {
    forall i, j :: 0 <= i < |d| && 0 <= j < |d[i]| ==> 0.0 <= d[i][j] < 1.0
  }

  /** `tf.fill(shape, v)`: a tensor of the given shape holding `v` everywhere. */
  function Fill(shape: Matrix, v: real): (r: Matrix)
    ensures SameShape(r, shape)
    ensures forall i, j :: 0 <= i < |r| && 0 <= j < |r[i]| ==> r[i][j] == v
  {
    seq(|shape|, i requires 0 <= i < |shape| => seq(|shape[i]|, j => v))
  }

  /** `tf.zeros(shape)`. */
  function Zeros(shape: Matrix): Matrix
  {
    Fill(shape, 0.0)
  }

  /**
   * `binomial_vec` (dae.py:97-114): `select(dist < p_vec, 1, 0)`, where
   * `dist` is the matrix of uniform draws.
   */
  function BinomialVec(draws: Matrix, probs: Matrix): (r: Matrix)
    requires SameShape(draws, probs)
    ensures SameShape(r, draws) && IsBinary(r)
    ensures forall i, j :: 0 <= i < |r| && 0 <= j < |r[i]| ==>
      (r[i][j] == 1.0 <==> draws[i][j] < probs[i][j])
  {
    seq(|draws|, i requires 0 <= i < |draws| =>
      seq(|draws[i]|, j requires 0 <= j < |draws[i]| =>
        if draws[i][j] < probs[i][j] then 1.0 else 0.0))
  }

  /**
   * `binomial` (dae.py:78-95): `select(dist < fill(shape, p), 1, 0)`, i.e.
   * a Bernoulli(p) mask given the uniform draws `dist`.
   */
  function Binomial(draws: Matrix, p: real): (r: Matrix)
    ensures SameShape(r, draws) && IsBinary(r)
    ensures forall i, j :: 0 <= i < |r| && 0 <= j < |r[i]| ==> (r[i][j] == 1.0 <==> draws[i][j] < p)
  {
    BinomialVec(draws, Fill(draws, p))
  }

  /**
   * `salt_and_pepper_noise` (dae.py:116-137): a keep-mask `a` with
   * probability `1 - rate`, a fair coin `b`, and the result `X*a + c` where
   * `c` is `b` where `a` is 0 and 0 elsewhere.
   */
  function SaltAndPepperNoise(x: Matrix, keep: Matrix, coin: Matrix, rate: real): (r: Matrix)
    requires SameShape(x, keep) && SameShape(x, coin)
    ensures SameShape(r, x)
    // a kept element is the input element itself
    ensures forall i, j :: 0 <= i < |r| && 0 <= j < |r[i]| && keep[i][j] < 1.0 - rate ==>
      r[i][j] == x[i][j]
    // a replaced element is the fair coin: 1 when its draw is below 0.5, else 0
    ensures forall i, j :: 0 <= i < |r| && 0 <= j < |r[i]| && !(keep[i][j] < 1.0 - rate) ==>
      (r[i][j] == 0.0 || r[i][j] == 1.0) && (r[i][j] == 1.0 <==> coin[i][j] < 0.5)
  {
    var a := Binomial(keep, 1.0 - rate);
    var b := Binomial(coin, 0.5);
    var z := Zeros(x);
    seq(|x|, i requires 0 <= i < |x| =>
      seq(|x[i]|, j requires 0 <= j < |x[i]| =>
        x[i][j] * a[i][j] + (if a[i][j] == z[i][j] then b[i][j] else z[i][j])))
  }

  /** `masking_noise` (dae.py:139-156): `X * a` for a keep-mask `a` with probability `1 - rate`. */
  function MaskingNoise(x: Matrix, keep: Matrix, rate: real): (r: Matrix)
    requires SameShape(x, keep)
    ensures SameShape(r, x)
    ensures forall i, j :: 0 <= i < |r| && 0 <= j < |r[i]| ==>
      r[i][j] == if keep[i][j] < 1.0 - rate then x[i][j] else 0.0
  {
    var a := Binomial(keep, 1.0 - rate);
    seq(|x|, i requires 0 <= i < |x| =>
      seq(|x[i]|, j requires 0 <= j < |x[i]| => x[i][j] * a[i][j]))
  }

  /**
   * `gaussian_noise` (dae.py:158-176): `X + random_normal(mean=0, stddev=std)`,
   * with the standard-normal draws `z` scaled as TensorFlow does, `z*std + 0`.
   */
  function GaussianNoise(x: Matrix, z: Matrix, std: real): (r: Matrix)
    requires SameShape(x, z)
    ensures SameShape(r, x)
    ensures forall i, j :: 0 <= i < |r| && 0 <= j < |r[i]| ==> r[i][j] - x[i][j] == z[i][j] * std
  {
    seq(|x|, i requires 0 <= i < |x| =>
      seq(|x[i]|, j requires 0 <= j < |x[i]| => x[i][j] + (z[i][j] * std + 0.0)))
  }

  /**
   * The gaussian branch of `corrupt_input` (dae.py:332-334):
   * `gaussian_noise(x, std) * prob + x * (1 - prob)`. `prob` is one mixing
   * weight for all elements, not a per-element Bernoulli choice.
   */
  function GaussianBlend(x: Matrix, z: Matrix, std: real, prob: real): (r: Matrix)
    requires SameShape(x, z)
    ensures SameShape(r, x)
  {
    var g := GaussianNoise(x, z, std);
    seq(|x|, i requires 0 <= i < |x| =>
      seq(|x[i]|, j requires 0 <= j < |x[i]| => g[i][j] * prob + x[i][j] * (1.0 - prob)))
  }

  /** The corruption scheme a model instance is configured with. */
  datatype NoiseKind = SaltAndPepper | Masking | Gaussian

  /**
   * The string dispatch of `corrupt_input` (dae.py:328-336): exact matches
   * select a scheme, every other string falls back to salt-and-pepper.
   */
  function ParseNoiseKind(corruptType: string): (k: NoiseKind)
    ensures k == Masking <==> corruptType == "masking"
    ensures k == Gaussian <==> corruptType == "gaussian"
    ensures k == SaltAndPepper <==> corruptType != "masking" && corruptType != "gaussian"
  {
    if corruptType == "salt_and_pepper" then SaltAndPepper
    else if corruptType == "masking" then Masking
    else if corruptType == "gaussian" then Gaussian
    else SaltAndPepper
  }

  /** The random draws one evaluation of `corrupt_input` consumes. */
  datatype NoiseDraws = NoiseDraws(keep: Matrix, coin: Matrix, normal: Matrix)

  predicate DrawsFit(x: Matrix, d: NoiseDraws)
  {
    SameShape(x, d.keep) && SameShape(x, d.coin) && SameShape(x, d.normal)
  }

  /** `corrupt_input(x, corrupt_prob, corrupt_std)` (dae.py:312-337) for a parsed scheme. */
  function CorruptInput(kind: NoiseKind, x: Matrix, prob: real, std: real, d: NoiseDraws): (r: Matrix)
    requires DrawsFit(x, d)
    ensures SameShape(r, x)
  {
    match kind
    case SaltAndPepper => SaltAndPepperNoise(x, d.keep, d.coin, prob)
    case Masking => MaskingNoise(x, d.keep, prob)
    case Gaussian => GaussianBlend(x, d.normal, std, prob)
  }

  // ---------------------------------------------------------------------
  // Properties

  /** `binomial` is `binomial_vec` against a filled probability tensor. */
  lemma BinomialAsVec(draws: Matrix, p: real, probs: Matrix)
    requires SameShape(draws, probs)
    requires forall i, j :: 0 <= i < |probs| && 0 <= j < |probs[i]| ==> probs[i][j] == p
    ensures Binomial(draws, p) == BinomialVec(draws, probs)
  {
    var r, s := Binomial(draws, p), BinomialVec(draws, probs);
    forall i | 0 <= i < |r| ensures r[i] == s[i] {
      assert |r[i]| == |s[i]|;
      forall j | 0 <= j < |r[i]| ensures r[i][j] == s[i][j] {
        assert r[i][j] == 1.0 <==> s[i][j] == 1.0;
      }
    }
  }

  /** With draws in [0, 1), a probability of 1 gives the all-ones mask and 0 the all-zeros mask. */
  lemma BinomialExtremes(draws: Matrix)
    requires UnitDraws(draws)
    ensures Binomial(draws, 1.0) == Fill(draws, 1.0)
    ensures Binomial(draws, 0.0) == Zeros(draws)
  {
    var ones, zeros := Binomial(draws, 1.0), Binomial(draws, 0.0);
    forall i | 0 <= i < |draws| ensures ones[i] == Fill(draws, 1.0)[i] && zeros[i] == Zeros(draws)[i] {
      assert forall j :: 0 <= j < |draws[i]| ==> ones[i][j] == 1.0 && zeros[i][j] == 0.0;
    }
  }

  /** Masking at rate 0 is the identity; at rate 1 every element is zeroed. */
  lemma MaskingExtremes(x: Matrix, keep: Matrix)
    requires SameShape(x, keep) && UnitDraws(keep)
    ensures MaskingNoise(x, keep, 0.0) == x
    ensures MaskingNoise(x, keep, 1.0) == Zeros(x)
  {
    var kept, dropped := MaskingNoise(x, keep, 0.0), MaskingNoise(x, keep, 1.0);
    forall i | 0 <= i < |x| ensures kept[i] == x[i] && dropped[i] == Zeros(x)[i] {
      assert forall j :: 0 <= j < |x[i]| ==> kept[i][j] == x[i][j] && dropped[i][j] == 0.0;
    }
  }

  /**
   * Salt-and-pepper at rate 0 is the identity; at rate 1 every element is
   * replaced by its fair coin, so the result is the coin mask itself.
   */
  lemma SaltAndPepperExtremes(x: Matrix, keep: Matrix, coin: Matrix)
    requires SameShape(x, keep) && SameShape(x, coin) && UnitDraws(keep)
    ensures SaltAndPepperNoise(x, keep, coin, 0.0) == x
    ensures SaltAndPepperNoise(x, keep, coin, 1.0) == Binomial(coin, 0.5)
  {
    var kept, replaced, b := SaltAndPepperNoise(x, keep, coin, 0.0), SaltAndPepperNoise(x, keep, coin, 1.0), Binomial(coin, 0.5);
    forall i | 0 <= i < |x| ensures kept[i] == x[i] && replaced[i] == b[i] {
      forall j | 0 <= j < |x[i]| ensures kept[i][j] == x[i][j] && replaced[i][j] == b[i][j] {
        assert !(keep[i][j] < 1.0 - 1.0);
      }
    }
  }

  /**
   * The gaussian blend adds `prob` times the noise: it is `x` at `prob = 0`
   * and the plain `gaussian_noise` copy at `prob = 1`.
   */
  lemma GaussianBlendShift(x: Matrix, z: Matrix, std: real, prob: real)
    requires SameShape(x, z)
    ensures forall i, j :: 0 <= i < |x| && 0 <= j < |x[i]| ==>
      GaussianBlend(x, z, std, prob)[i][j] == x[i][j] + prob * (z[i][j] * std)
    ensures prob == 0.0 ==> GaussianBlend(x, z, std, prob) == x
    ensures prob == 1.0 ==> GaussianBlend(x, z, std, prob) == GaussianNoise(x, z, std)
  {
    var r, g := GaussianBlend(x, z, std, prob), GaussianNoise(x, z, std);
    forall i, j | 0 <= i < |x| && 0 <= j < |x[i]|
      ensures r[i][j] == x[i][j] + prob * (z[i][j] * std)
    {
      assert r[i][j] == g[i][j] * prob + x[i][j] * (1.0 - prob);
      assert g[i][j] == x[i][j] + z[i][j] * std;
    }
    if prob == 0.0 {
      forall i | 0 <= i < |x| ensures r[i] == x[i] {
        assert forall j :: 0 <= j < |x[i]| ==> r[i][j] == x[i][j];
      }
    }
    if prob == 1.0 {
      forall i | 0 <= i < |x| ensures r[i] == g[i] {
        assert forall j :: 0 <= j < |x[i]| ==> r[i][j] == g[i][j];
      }
    }
  }

  /**
   * Whatever the scheme, a corruption probability of 0 leaves the input
   * unchanged; at probability 1 masking zeroes everything and the gaussian
   * branch is the fully perturbed copy.
   */
  lemma CorruptInputExtremes(kind: NoiseKind, x: Matrix, std: real, d: NoiseDraws)
    requires DrawsFit(x, d) && UnitDraws(d.keep)
    ensures CorruptInput(kind, x, 0.0, std, d) == x
    ensures kind == Masking ==> CorruptInput(kind, x, 1.0, std, d) == Zeros(x)
    ensures kind == SaltAndPepper ==> CorruptInput(kind, x, 1.0, std, d) == Binomial(d.coin, 0.5)
    ensures kind == Gaussian ==> CorruptInput(kind, x, 1.0, std, d) == GaussianNoise(x, d.normal, std)
  {
    match kind
    case SaltAndPepper => SaltAndPepperExtremes(x, d.keep, d.coin);
    case Masking => MaskingExtremes(x, d.keep);
    case Gaussian => GaussianBlendShift(x, d.normal, std, 0.0); GaussianBlendShift(x, d.normal, std, 1.0);
  }

  /**
   * The class docstring (dae.py:201) names the scheme `masked`, but the
   * dispatch tests for `masking`: `masked` selects salt-and-pepper.
   */
  lemma MaskedSpellingFallsBack()
    ensures ParseNoiseKind("masked") == SaltAndPepper
    ensures ParseNoiseKind("salt_and_pepper") == SaltAndPepper
  {
  }
}
