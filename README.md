# Denoising autoencoder: a verified model of its discrete skeleton

`dae.py` builds a TensorFlow denoising autoencoder. The model is trained to
reconstruct its input from a corrupted copy. It can optionally unroll a
"walkback" chain: each step's reconstruction is resampled and fed back in. A
trained model can generate rows by pseudo-Gibbs sampling. This project models
the parts of that program that are index, shape and control logic:

- `noise.dfy` (module `Noise`) covers the Bernoulli masks `binomial` and
  `binomial_vec`. It also covers the three corruption schemes
  (salt-and-pepper, masking and the gaussian blend) and the string dispatch
  of `corrupt_input`.
  - Tensors are matrices of exact reals.
  - Every random draw is a parameter: uniform draws in [0, 1), and
    standard-normal draws for `tf.random_normal`.
- `graph.dfy` (module `Graph`) holds the TensorFlow graph at the level of
  shapes. A symbolic `Node` is a placeholder, a corrupted copy, a Bernoulli
  sample or a dense layer. The class `VariableStore` is the variable store, and each
  `tf.Variable` call appends to it. `Width` computes a node's column width,
  or reports a shape mismatch.
- `layers.dfy` (module `Layers`) covers `update_layers`.
  - The encoder loop creates one weight and one bias per layer.
  - The encoder list is reversed.
  - The decoder loop uses each encoder weight transposed, in reverse order,
    with one fresh bias per layer.
  - The module proves the shapes, the weight tying and the parameter counts.
- `walkback.dfy` (module `Walkback`) covers `_autoencoder`. It assembles the
  walkback chain, in which each step rebuilds the layers on a Bernoulli sample
  of the previous reconstruction.
- `dae.dfy` (module `Dae`) is the `DAE` object. Its constructor stores the
  configuration and builds the network with `_create_network` in TensorFlow's
  default graph, which every instance in a process shares. It also builds
  the list of cross-entropy terms of `_create_loss_optimizer`, together with
  the clipping of `binary_crossentropy`.
- `training.dfy` (module `Training`) covers the training cycle of `fit`.
  - It computes the start indices of the mini-batches with Python's `range`.
  - It cuts the batch excerpts: contiguous slices, or slices of a shuffled
    index list.
  - It keeps the running `avg_cost` and decides when an epoch is logged.
  - What `partial_fit` returns for each batch is an input, and the shuffle
    permutation of each epoch is an input.
- `sampler.dfy` (module `Sampler`) is `sample`. It fills a fresh array row by
  row, feeding each reconstruction back as the next input. `reconstruct` is
  an abstract function of the row and of the random draws one run of the
  graph takes.

Behaviour of the code worth noting:

- Every call of `update_layers` creates new `tf.Variable`s (dae.py:362-363,
  376). A run with K > 0 walkback steps therefore has K independent parameter
  sets. The weights are not shared across steps (`Walkback.WalkbackStepsIndependent`).
- At every walkback step after the first, the Bernoulli sample is corrupted
  again inside `update_layers` (dae.py:356). This is modelled as
  `Corrupted(BernoulliSample(..))`.
- With `walkbacks <= 0` the chain stays empty, and the cost has the single
  term for `y` (dae.py:394-395, 404-405).
- The reconstruction `y` that `sample` evaluates includes the corruption
  operations, so two runs on the same row may differ. This is why
  `reconstruct` takes a draw argument.
- The class docstring names the scheme `masked` (dae.py:201), but the dispatch
  tests for `masking`, so `masked` selects salt-and-pepper
  (`Noise.MaskedSpellingFallsBack`).

## Model

| member | source | states |
|---|---|---|
| Noise.Fill | dae.py:94 | `tf.fill`: same shape as the template, every element the given value |
| Noise.BinomialVec | dae.py:112-114 | the mask has the draws' shape, holds only 0 and 1, and an element is 1 iff its draw is below the matching probability |
| Noise.Binomial | dae.py:93-95 | the mask has the draws' shape, holds only 0 and 1, and an element is 1 iff its draw is below `p` |
| Noise.BinomialAsVec | dae.py:93-95 | `binomial` equals `binomial_vec` against any probability tensor filled with `p` |
| Noise.BinomialExtremes | dae.py:93-95 | for draws in [0, 1), p = 1 gives the all-ones mask and p = 0 the all-zeros mask |
| Noise.SaltAndPepperNoise | dae.py:116-137 | same shape as X; a kept element (keep draw below 1 - rate) equals X; a replaced element is 0 or 1, and it is 1 iff its coin draw is below 0.5 |
| Noise.SaltAndPepperExtremes | dae.py:133-137 | rate 0 is the identity; rate 1 replaces every element by the fair-coin mask |
| Noise.MaskingNoise | dae.py:139-156 | same shape as X; each element is X where the keep draw is below 1 - rate, else 0 |
| Noise.MaskingExtremes | dae.py:155-156 | for draws in [0, 1), rate 0 is the identity and rate 1 zeroes every element |
| Noise.GaussianNoise | dae.py:158-176 | same shape as X; each element differs from X by the standard-normal draw scaled by `std` |
| Noise.GaussianBlend | dae.py:332-334 | the blend `gaussian_noise(x)*prob + x*(1-prob)` keeps the shape of x |
| Noise.GaussianBlendShift | dae.py:332-334 | each blended element is x plus `prob` times the scaled noise; prob 0 gives x, prob 1 gives `gaussian_noise(x)` |
| Noise.ParseNoiseKind | dae.py:328-336 | `masking` and `gaussian` select their schemes by exact match, and every other string selects salt-and-pepper (both directions) |
| Noise.MaskedSpellingFallsBack | dae.py:201 | the documented spelling `masked` selects salt-and-pepper, as does `salt_and_pepper` |
| Noise.CorruptInput | dae.py:312-337 | every corruption scheme keeps the input's shape |
| Noise.CorruptInputExtremes | dae.py:328-336 | probability 0 leaves the input unchanged under every scheme; at probability 1, masking gives zeros, salt-and-pepper the coin mask, and the gaussian branch `x + noise` |
| Graph.Width | dae.py:361-377 | shape inference: a well-shaped dense layer has an existing weight whose inner dimension (rows, or columns when transposed) is its input's width, an output as wide as the weight's other dimension, and a bias of exactly that width |
| Graph.ShapeMismatch | dae.py:361-377 | the converse: a missing variable, a `matmul` whose inner dimensions differ, or a bias of the wrong width makes the graph ill-shaped |
| Graph.WidthExtend | dae.py:362-363 | creating further variables does not change the width of a tensor built earlier |
| Graph.VariableStore.NewVariable | dae.py:362-363 | `tf.Variable` appends exactly one variable to the store and names it by its position |
| Layers.Reverse | dae.py:371 | `encoder.reverse()`: same length, element i is element n-1-i |
| Layers.EncoderVariablesAt | dae.py:360-364 | encoder layer k creates a weight of shape [dim[k], dim[k+1]] and then a bias of width dim[k+1] |
| Layers.DecoderVariablesAt | dae.py:373-376 | decoder layer i creates one bias, of width `Reverse(layer_dim[:-1])[i]`, i.e. `layer_dim[:-1][::-1][i]`, and no weight |
| Layers.ParameterCount | dae.py:359-381 | one `update_layers` call creates 3L variables: L weights and 2L biases |
| Layers.EncodedWidth | dae.py:360-369 | the output of encoder layer i has width dim[i], so the latent code has the last width |
| Layers.DecodedWidth | dae.py:373-381 | the output of decoder layer i has width dim[L-i], so the reconstruction has width n_input |
| Layers.EncodedLayers | dae.py:360-366 | the encoder stacks i untransposed dense layers on the corrupted input; layer k uses weight 2k and bias 2k+1 of the block |
| Layers.DecodedLayers | dae.py:371-378 | the decoder stacks i transposed layers on z; decoder layer k uses encoder weight L-1-k and bias 2L+k |
| Layers.TiedWeights | dae.py:359-381 | the reconstruction has 2L dense layers; the second half is transposed and reuses the first half's weights mirrored; weights and biases are all distinct otherwise, and all lie in the call's block of 3L |
| Layers.EncodedParameters | dae.py:360-366 | the encoder's layers use exactly the first 2i variables of the block |
| Layers.DecodedParameters | dae.py:373-378 | encoder plus i decoder layers use exactly the first 2L+i variables of the block |
| Layers.BuilderShapes | dae.py:356-381 | on a correctly shaped input, z has the last hidden width and y has width n_input |
| Layers.BuildEncoder | dae.py:359-369 | the encoder loop appends the encoder variables to the graph; z is the encoded tensor; `encoder` records the position of each weight |
| Layers.EncoderLayer | dae.py:361-366 | one encoder step: given the store after i layers, it appends a `[layer_dim[i], layer_dim[i + 1]]` weight and a `layer_dim[i + 1]` bias, the weight sits at position base + 2i, and the output is the encoder after i + 1 layers |
| Layers.BuildDecoder | dae.py:371-381 | the decoder loop appends one bias per layer and builds the tied decoder on z |
| Layers.UpdateLayers | dae.py:339-383 | one call appends the 3L variables of a layer block and returns the latent code and the reconstruction of the corrupted input |
| Walkback.StepBaseFormula | dae.py:390-391 | walkback step k's block of variables starts 3Lk positions after the first |
| Walkback.WalkbackStepsIndependent | dae.py:388-393 | two different walkback steps share no weight and no bias |
| Walkback.WalkbackChain | dae.py:386-393 | the chain after k steps has exactly k entries |
| Walkback.WalkbackChainSteps | dae.py:388-393 | entry 0 reconstructs the corrupted input; entry i > 0 reconstructs the corrupted Bernoulli sample of entry i-1 with the next block of variables |
| Walkback.LatentDecodes | dae.py:391-392 | the last chain entry is the decoding of the latent code returned as z |
| Walkback.WalkbackShapes | dae.py:386-397 | every chain entry has width n_input, and the final z has the last hidden width |
| Walkback.WalkbackLoop | dae.py:388-393 | the loop builds the chain; the graph gains K blocks of variables; y is the last entry and z its latent code |
| Walkback.Autoencoder | dae.py:385-397 | K > 0 gives the K-step chain; otherwise one call and an empty chain; the widths of y, z and the chain entries |
| Dae.Clip | dae.py:23 | `clip_by_value` on one element: the result is in range, in-range values are kept, and out-of-range values go to the nearer bound |
| Dae.ClipOutput | dae.py:23 | `clip_by_value(output, lo, hi)` keeps the shape, puts every element in [lo, hi], and keeps elements already in that range |
| Dae.Float32Near1 | dae.py:23 | float32 rounding in [1/2, 1]: the result is a multiple of 2^-24 within half a spacing of the value |
| Dae.ClipAsWrittenSaturates | dae.py:18-25 | as written, the float32 bound `1 - offset` is 1.0: `log(output_)` still gets a positive argument, but `1 - output_` is 0 exactly for outputs at or above 1 |
| Dae.ClippedLogArguments | dae.py:18-25 | with the upper bound `1 - 2^-24`, which float32 keeps, both logarithms of the cross-entropy get strictly positive arguments |
| Dae.Steps | dae.py:388-395 | `update_layers` runs K times for K > 0, and once otherwise |
| Dae.LossTerms | dae.py:399-405 | one cross-entropy per chain entry against x for K > 0; otherwise the single term for y against x |
| Dae.RepeatedParameterCount | dae.py:388-395 | k builder calls create k·3L variables: k·L weights and k·2L biases |
| Dae.DAE.LayerDim | dae.py:289-290 | the width list is `[n_input] + hidden_dim`, ending in the latent width |
| Dae.DAE.constructor | dae.py:246-285 | the configuration is stored and x is an n_input placeholder; the network is built in the shared default graph, after the variables already there, whose earlier entries stay unchanged; for K > 0 the chain is the K-step walkback chain from x and z the last step's latent code; otherwise y and z are the single reconstruction and latent code of the corrupted x; the cost is `LossTerms` of that network, one term per step against x, each of width n_input |
| Dae.DAE.CreateNetwork | dae.py:287-292 | builds the chain or single reconstruction from `[n_input] + hidden_dim` with the configured scheme; z is the latent code of the last (or only) step; appends Steps(K) blocks of variables |
| Dae.DAE.CreateLossOptimizer | dae.py:399-405 | the cost terms are those of `LossTerms`, and the network is unchanged |
| Dae.DAE.Fit | dae.py:477-520 | `fit` on the instance runs `num_epochs` epochs of `batch_size` rows, with `log_every` as the fallback display step: its calls and log lines are `FitTrace` of those fields, and every call gets batch_size rows |
| Training.RangeUp | dae.py:501 | `range` with a positive step is nonempty iff start < stop, starts at start, stays in [start, stop), and stops at the first value not below stop |
| Training.RangeDown | dae.py:501 | `range` with a negative step is nonempty iff stop < start, stays in (stop, start], and stops at the first value not above stop |
| Training.PyRange | dae.py:501 | `range` is nonempty exactly when the step moves from start towards stop, and its first element is start |
| Training.PyMod | dae.py:516 | Python's `%` takes the divisor's sign and is 0 exactly when the Euclidean remainder is |
| Training.Range | dae.py:497 | `np.arange(n)` lists 0 .. n-1 |
| Training.Rows | dae.py:507 | `X[excerpt]` has one row per index, row k being `X[excerpt[k]]` |
| Training.BatchStarts | dae.py:501 | there are no starts for a negative batch size; otherwise the starts are `range(0, n-bs+1, bs)`, and each batch ends inside the data |
| Training.StartsAreMultiples | dae.py:501 | for bs > 0 there are exactly floor(n / bs) starts, and start j is j·bs |
| Training.StartsIncrease | dae.py:501-507 | a later batch starts at or after the end of an earlier one |
| Training.Excerpts | dae.py:501-506 | one excerpt per start, each of exactly batch_size indices |
| Training.ExcerptsCover | dae.py:501-506 | the excerpts, concatenated, are exactly the first floor(n/bs)·bs positions of the index list; the dropped tail is shorter than a batch |
| Training.ExcerptsAreSlices | dae.py:501-506 | excerpt i is the slice of the order that starts at i·bs and is bs long, and it lies inside the order |
| Training.ExcerptsDisjoint | dae.py:497-506 | over a permutation, no row index appears in two batches, and every index names a row |
| Training.EpochBatches | dae.py:501-507 | one batch per start, each of exactly batch_size rows |
| Training.EpochBatchAt | dae.py:502-507 | batch i is the rows of the permutation slice when shuffling, and the contiguous slice of X otherwise |
| Training.ContiguousRows | dae.py:497-507 | selecting rows through a slice of `arange(n)` is the same as slicing X |
| Training.BatchesNeedRows | dae.py:501-514 | an epoch has a batch only if there are rows and 0 < bs <= n |
| Training.HasBatch | dae.py:501-514 | with 0 < bs <= n an epoch has at least one batch |
| Training.ShouldLog | dae.py:516 | an epoch is logged iff `display_step` is set, non-zero, and divides the epoch index |
| Training.Share | dae.py:512 | one batch's share times n is its cost times batch_size, and it is non-negative for a non-negative cost |
| Training.AvgCost | dae.py:499-512 | `avg_cost` starts at 0, and it stays non-negative when every batch cost is |
| Training.FitTrace | dae.py:495-518 | the reference trace of the epoch loop: at most one printed line per epoch, and every `partial_fit` call gets batch_size rows |
| Training.FitEpoch | dae.py:495-518 | one pass of the epoch loop extends the calls and logs from the trace after e epochs to the trace after e + 1 |
| Training.DisplayStep | dae.py:491-492 | an explicit `display_step` is kept, and a missing one falls back to `log_every` |
| Training.CutBatch | dae.py:503-507 | the batch cut at start j is batch j of the epoch |
| Training.AddCost | dae.py:512 | adding batch j's share turns `avg_cost` over the first j batches into `avg_cost` over the first j + 1 |
| Training.TrainEpoch | dae.py:499-512 | the batch loop of an epoch passes exactly the epoch's batches, in order, to `partial_fit`, and `avg_cost` is the sum of the per-batch shares |
| Training.AvgCostIsScaledSum | dae.py:499-512 | `avg_cost` is the summed batch cost times batch_size / n |
| Training.Fit | dae.py:477-520 | no epochs gives no calls and no lines; otherwise the calls and printed lines are the trace of `numEpochs` epochs under the resolved display step |
| Training.NoFullBatch | dae.py:501-518 | with n < batch_size (or a negative batch size), `partial_fit` is never called and nothing is printed |
| Training.CallCount | dae.py:495-510 | over E epochs `partial_fit` is called E·floor(n/bs) times, each time on batch_size rows |
| Training.LoggedEpochs | dae.py:514-518 | every due epoch number lies between 1 and the number of epochs |
| Training.LoggedEpochsMembers | dae.py:514-518 | an epoch number is due iff it is in range and its epoch index is divisible by the display step, which must be set and non-zero; the numbers increase |
| Training.LogLines | dae.py:514-518 | when the data holds a full batch, there is one line per due epoch, in order, each with that epoch's `avg_cost` |
| Training.DisplayOff | dae.py:516 | with no display step, or 0, nothing is ever printed |
| Sampler.Chain | dae.py:448-460 | the chain of k samples has k rows |
| Sampler.ChainPrefix | dae.py:449-460 | drawing fewer samples gives a prefix of the same chain |
| Sampler.ChainFeedback | dae.py:449-460 | row 0 reconstructs the seed row, and row i > 0 reconstructs row i-1 |
| Sampler.ChainWidth | dae.py:448-460 | when reconstructions have n_input entries, so does every sample |
| Sampler.FixedPointChain | dae.py:449-460 | a seed that reconstruction always returns unchanged is every sample |
| Sampler.Sample | dae.py:433-462 | returns a fresh array of n_samples rows of width n_input, filled with the feedback chain started at the chosen seed row |

## Findings

| source | as written | input that shows it | evidently intended | confidence | as-written member | corrected member |
|---|---|---|---|---|---|---|
| dae.py:18-25 | `tf.clip_by_value(output, offset, 1 - offset)` with `offset = 1e-10` on a float32 tensor. `1 - 1e-10` rounds to 1.0 in float32, so the upper bound clips nothing | an output element of 1.0, which a saturated sigmoid produces: `log(1 - output_)` is `log(0)`, so the term is infinite (target 0) or NaN (target 1) | an upper bound strictly below 1 in float32, such as `1 - 2^-24`, so that both logarithms get positive arguments | high; not executed | Dae.ClipAsWrittenSaturates | Dae.ClippedLogArguments |

## Left out

- The TensorFlow session, variable initialisation, `Saver`, `close` and the
  Adam optimizer (dae.py:279-285, 407-409, 522-524) are a foreign library. The
  effect of `partial_fit` on the weights is not modelled. Its per-batch costs
  are inputs of `Training.Fit`.
- `transform` and `reconstruct` (dae.py:411-431) are session runs of z and y.
  `Sampler.Sample` takes the reconstruction as an abstract function.
- Dae.ClipOutput: the lower clip bound is the exact real 1e-10, not its float32
  value. Both are positive, which is all the lemmas use. `Dae.Float32Near1`
  rounds ties up, not to even; no tie occurs in the model.
- Float numerics are not modelled beyond the clip bounds:
  - the transfer function (sigmoid);
  - the logarithms and the reduction of `binary_crossentropy`, which is modelled
    only up to its clipping;
  - Xavier initialisation (dae.py:9-16);
  - the values `tf.random_normal` draws;
  - the values of the tensors the graph computes.
  Tensor values are exact reals.
- `lrelu`, `linear` and `dropout` (dae.py:27-76) are never used by the network
  and are not part of this model.
- The random number generator is not modelled: the seeds, `np.random.shuffle`,
  `np.random.randint` and TensorFlow's random ops. Their results are
  parameters: uniform draws in [0, 1), standard-normal draws, one permutation
  per epoch, and the seed index.
- `main`, `parse_args` and `test_mnist` (dae.py:526-629) are command-line,
  dataset and plotting code, and are not part of this model.
- Bias broadcasting is not modelled. `Graph.Width` asks a bias to have exactly
  the layer's width.
- Graph.Width: the batch dimension is left out; every node has the
  placeholder's row count.
- Training.Fit: a zero batch size makes Python's `range` raise before the
  first batch. The model excludes it by precondition whenever an epoch runs,
  instead of modelling the exception.
- Sampler.Sample: `np.random.randint` raises on an empty `in_samples`. The
  model requires a valid seed index whenever a sample is drawn.
- Sampler.Sample keeps its rows as sequences in an array, not as an
  `n_samples` by `n_input` matrix. The width of every row comes from the
  precondition that each reconstruction has `n_input` entries. For the
  graph's `y` this is what `Dae.DAE.constructor` proves with
  `Width(y, graph.variables) == Some(nInput)`.
- Sampler.Sample does not model the wrapping of a scalar `in_samples` into a
  list (dae.py:445-446).
- Training.LogLines states the epoch number and `avg_cost` of each line, not
  its `{:.4f}` text.
- Dae.DAE.constructor does not model the `transfer_fct`, `W_init_fct`,
  `b_init_fct` and `learning_rate` arguments; they affect only values.
