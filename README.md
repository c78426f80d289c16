# Autoencoders of pylearn2, modelled in Dafny

This project models the configuration and bookkeeping logic of pylearn2's
`autoencoder.py`, and proves properties of the model:

- **Construction.** `Autoencoder.__init__` checks its arguments, resolves the
  encoder and decoder activations and allocates the parameters. A model built
  with `nvis == 0` is left half-built, and `set_visible_size` may complete it
  once.
- **Symbolic graphs.** `encode` and `reconstruct` build graphs for one
  minibatch or for a (nested) list of minibatches. `reconstruct` caches the
  hidden activations and the regularisation term on the instance, and
  `compute_penalty_value` returns the cached term.
- **Regularisation.** The term is chosen by `solution`: nothing, an L1
  penalty, or a quadratic penalty towards a sparsity target. Its numeric
  value is given over the reals.
- **Variants.** The denoising variant corrupts its input before
  reconstructing. The contracting variant insists on an elementwise encoder
  activation.
- **Stacks.** `build_stacked_ae` broadcasts its per-layer arguments, chains
  the layer widths, shares one random generator among all layers, and picks
  each layer's class.

Theano graphs are modelled as terms (`Graph.Node`). Parameters are modelled
by name and shape (`Graph.Param`), and random draws only by the generator
they come from. Module layout:

- `python.dfy`: Python-level values:
  - `Option`, exceptions as `Result`;
  - objects that may or may not be callable;
  - the "minibatch or nested list of minibatches" shape `Nested`.
- `graph.dfy`: random generators, parameters and graph nodes.
- `sparsity.dfy`: the regularisation term, its numeric value, and the rule
  that chooses it.
- `autoencoder.dfy`: activation resolution and the constructor's checks
  (`Validate`); the `Autoencoder` class; the denoising reconstruction.
- `stacked.dfy`: `build_stacked_ae`.

Inputs from outside the module are parameters of the model:

- The three Python namespaces an activation name is looked up in (`Env`).
- The `is_pure_elemwise` probe: a set of callables in `Env`.
- The corruptor: a function on `Nested<Node>`.
- The seeds and generators.
- A valuation of graph nodes as real matrices, used to give the penalty a
  numeric meaning.

Where the docstrings of `autoencoder.py` and its code disagree, the model
follows the code, with one exception:

- **Weight values.** Weights are drawn as `0.5 - u * irange` with `u`
  uniform in [0, 1). So they are not "around 0" (lines 79-81); they lie in
  (0.5 - irange, 0.5].
- **Tied weights with `nvis == 0`** fail at construction with an
  `AttributeError`. The model is not "left partially initialized until later"
  (lines 46-48).
- **`set_visible_size`** accepts `nvis == 0`, which allocates empty weights
  and ends the deferred state. A negative `nvis` fails in NumPy.
- **Activation names.** Lines 53-54 say names are looked up in
  `theano.tensor.nnet` and `theano.tensor`. The code looks in three
  namespaces, the module's callable globals first. An attribute found in
  `tensor.nnet` or `tensor` is taken even when it is not callable.
- **Corruption (the exception).** Lines 375-376 say the denoising
  `reconstruct` corrupts its inputs once. The code corrupts list elements
  again (see Findings). The class's `Reconstruct` models that single
  corruption. The code as written is modelled beside it, by
  `DenoisingReconstructAsWritten`.

## Model

| member | source | states |
|---|---|---|
| Python.SameNestingSameDepth | autoencoder.py:297-300 | Lists of the same structure have the same nesting depth; used to show that structure-preserving corruptors keep the recursion of `reconstruct` terminating |
| Graph.ToGenerator | autoencoder.py:92-95 | An `rng` without `randn` (a seed or `None`) becomes a new `RandomState` of that seed; a generator is used as given |
| Graph.TransposedShape | autoencoder.py:106-107 | The tied decoder matrix `weights.T` has the two dimensions of `weights` swapped |
| Sparsity.RegularizationZeroUnlessNamed | autoencoder.py:312-321 | The term is 0 if and only if `solution` is neither `'l1_penalty'` nor `'sqr_penalty'`, and then its value is 0 |
| Sparsity.RegularizationL1 | autoencoder.py:314-315 | With `'l1_penalty'` and coefficient c the term is built, and its value is c times the sum of every hidden activation over every minibatch |
| Sparsity.RegularizationSqr | autoencoder.py:316-319 | With `'sqr_penalty'` on one minibatch the term is built, is never negative for a positive coefficient, and is 0 exactly when every activation equals `sparsity_target` |
| Sparsity.RegularizationFails | autoencoder.py:314-319 | The term fails (a `TypeError`) exactly when the chosen solution's coefficient or target is `None`, or the quadratic penalty is asked of a list |
| Sparsity.RegularizationOfListSucceeds | autoencoder.py:291-300 | When the term can be built for a list, it can be built for every other input too, so the list recursion never fails part-way |
| Sparsity.SqrPenaltyZeroIff | autoencoder.py:317-319 | With a positive coefficient, the quadratic penalty's value is 0 exactly when every entry equals the target |
| Sparsity.SqrPenaltyNonNegative | autoencoder.py:317-319 | With a non-negative coefficient, the quadratic penalty's value is never negative |
| Sparsity.SumSqDiffZeroIff | autoencoder.py:318-319 | The sum of squared distances to t is non-negative, and 0 exactly when every entry is t |
| Sparsity.L1PenaltyOfList | autoencoder.py:315 | The L1 penalty of a list is the coefficient times the sum, over the elements, of each element's total activation |
| Sparsity.L1PenaltyOfBatch | autoencoder.py:315 | The L1 penalty of one minibatch is the coefficient times the sum of its entries |
| Autoencoders.ResolveCallable | autoencoder.py:111-126 | `None` and `"linear"` give linear units; a callable is kept; a name takes a callable global first, then a `tensor.nnet` attribute, then a `tensor` attribute, and the result comes from that namespace; resolution fails exactly when the name is found in none, with the ValueError naming the argument; another non-callable object raises `TypeError` |
| Autoencoders.ConstructionSizes | autoencoder.py:86-107 | Construction fails with an assertion exactly when `nvis < 0` or `nhid <= 0`; tied weights with `nvis == 0` fail with `AttributeError`; a built model has valid sizes |
| Autoencoders.UnknownActivationFailsAtConstruction | autoencoder.py:125-129 | An `act_enc` name found nowhere makes the constructor fail with `ValueError("Couldn't interpret act_enc value: '<name>'")`, at construction time |
| Autoencoders.ContractingNeedsElementwise | autoencoder.py:402-407 | A contracting autoencoder is only built with a callable encoder activation that the elementwise probe accepts, and it then gets the same activations as the plain class |
| Autoencoders.Autoencoder.EncoderGraph | autoencoder.py:225-246 | For a model as `__init__` leaves it: with `act_enc` `None` or `"linear"`, the encoding of a minibatch `x` is `hidbias + dot(x, weights)` itself; a callable `act_enc`, or the name of a callable global, is applied to it; with `nvis > 0` the weights are `nvis×nhid`, drawn from the generator made of `rng` and scaled by `irange` |
| Autoencoders.Validate | autoencoder.py:86-129 | The constructor accepts exactly when the sizes are in range, tied weights have a visible size, both activations resolve, and (contracting) the encoder is a callable the elementwise probe accepts; it then uses the two resolved activations |
| Sparsity.Regularization | autoencoder.py:308-321 | It fails only with `TypeError`; an L1 term is built from the `hiddens` passed and `sparse_penalty`; a quadratic term only for one minibatch, from it, `sparsity_target_penalty` and `sparsity_target` |
| Autoencoders.Autoencoder.Encode | autoencoder.py:248-269 | `encode` gives a result of the same list structure as its input |
| Autoencoders.Autoencoder.ComputeRegularization | autoencoder.py:308-321 | With this model's settings the term fails only with `TypeError`, and is 0 when `solution` names neither penalty |
| Autoencoders.DenoisingReconstructAsWritten | autoencoder.py:392-393 | The denoising `reconstruct` as written (corrupt, then the base method); with a corruptor that changes nothing it is the plain reconstruction |
| Autoencoders.BaseReconstructAsWritten | autoencoder.py:289-300 | The base `reconstruct` inside a denoising autoencoder: a minibatch gives a minibatch; a list gives one result per element, each through the corrupting override; with a corruptor that changes nothing it is the plain reconstruction |
| Autoencoders.DenoisingReconstruct | autoencoder.py:375-393 | The intended denoising reconstruction has the structure of the corrupted input, and its minibatches are the corrupted minibatches, each encoded and decoded, in order |
| Autoencoders.Propagate | autoencoder.py:248-269 | `encode` keeps the list structure of its input |
| Autoencoders.PropagateLeaves | autoencoder.py:266-269 | The minibatches of `encode(inputs)` are those of `inputs`, each encoded, in the same order |
| Autoencoders.RoundTripDecodesEncoding | autoencoder.py:289-300 | The base reconstruction is the decoder applied to the encoding, with the input's structure and order |
| Autoencoders.DenoisingCorruptsTwice | autoencoder.py:297-300 | As written, the denoising reconstruction of the list `[x]` adds the noise twice, and so differs from reconstructing the input corrupted once |
| Autoencoders.DenoisingCorruptsOnce | autoencoder.py:392-393 | The intended denoising reconstruction keeps the input's structure, and its i-th minibatch is the reconstruction of the i-th input corrupted exactly once |
| Autoencoders.Autoencoder.constructor | autoencoder.py:88-142 | For arguments the constructor accepts: the state `__init__` leaves (sizes, generator, zero biases, `W`, `Wprime` or `W.T`, parameter list, resolved activations, no cached term) |
| Autoencoders.Autoencoder.Create | autoencoder.py:86-142 | Construction fails exactly when the checks fail, with their exception; otherwise it yields a fresh model in the initial state |
| Autoencoders.Autoencoder.ConstructedShapes | autoencoder.py:96-136 | `hidbias` has length `nhid`; with `nvis > 0`, `visbias` has length `nvis`, `weights` is `nvis×nhid`, and `w_prime` is `nhid×nvis`; with `nvis == 0` both are `None`; the parameter list is `[visbias, hidbias, weights]`, plus `w_prime` only when untied |
| Autoencoders.Autoencoder.InitializeHidbias | autoencoder.py:156-161 | `hidbias` becomes the zero vector `hb` of length `nhid` |
| Autoencoders.Autoencoder.InitializeVisbias | autoencoder.py:163-168 | `visbias` becomes the zero vector `vb` of length `nvis`; a negative length raises `ValueError` and changes nothing |
| Autoencoders.Autoencoder.DrawSource | autoencoder.py:144-151 | The generator drawn from is the argument if given, else the stored one; it fails exactly when that is a seed, which has no `rand` |
| Autoencoders.Autoencoder.InitializeWeights | autoencoder.py:144-154 | `weights` becomes the `nvis×nhid` matrix `W` from the chosen generator, scaled by the stored `irange` whatever `irange` argument is passed; failures leave it unchanged |
| Autoencoders.Autoencoder.InitializeWPrime | autoencoder.py:170-182 | `w_prime` becomes the `nhid×nvis` matrix `Wprime`, scaled by the `irange` argument or the stored one; it has no tied-weights guard |
| Autoencoders.Autoencoder.SetVisibleSize | autoencoder.py:184-208 | With weights already set: `ValueError` and nothing changes. Otherwise a given `rng` replaces the stored one, then `visbias`, `weights` and (untied) `w_prime` are allocated for `nvis`; an exception keeps what was allocated before it; tied models always refuse; on success the model has weights for `nvis` visible units, so a second call fails |
| Autoencoders.Autoencoder.EncodeAndReconstructStructure | autoencoder.py:246-300 | `encode` keeps the input's structure and encodes its minibatches in order; `reconstruct` decodes the encoding |
| Autoencoders.Autoencoder.ReconstructBase | autoencoder.py:289-306 | Returns the reconstruction exactly when the term can be built; `hiddens` and the term returned by `compute_penalty_value` end as those of the last call of the list recursion; on failure `hiddens` holds the encoding and the term is unchanged |
| Autoencoders.Autoencoder.Reconstruct | autoencoder.py:392-393 | The denoising model reconstructs `corruptor(inputs)` with the base method (corrupting once); the other classes reconstruct `inputs`; success exactly when the term can be built; on failure `hiddens` holds the encoding of what was reconstructed and the term is unchanged |
| Stacked.Broadcast | autoencoder.py:484-488 | A single value is repeated `len(nhids)` times; a sequence is kept exactly when its length is `len(nhids)`, else `AssertionError` |
| Stacked.BroadcastAll | autoencoder.py:481-488 | Broadcasting succeeds exactly when every one of the ten per-layer arguments fits, and then every sequence has one entry per layer |
| Stacked.VisibleWidths | autoencoder.py:494 | The visible width of layer 0 is `nvis`, and of layer i > 0 it is `nhids[i-1]` |
| Stacked.SelectVariant | autoencoder.py:512-520 | Both a corruptor and the contracting flag: `ValueError`; contracting alone: contracting; a corruptor alone: denoising with that corruptor; neither: plain |
| Stacked.ZipLayers | autoencoder.py:494-506 | The zipped loop arguments have one entry per element of `nhids` |
| Stacked.LayerOutcome | autoencoder.py:508-521 | One loop step fails with the class choice's `ValueError` or with the chosen constructor's exception; otherwise it builds a layer of that class with exactly its arguments |
| Stacked.PlanLayers | autoencoder.py:507-521 | A completed layer loop has one layer per argument tuple |
| Stacked.Plan | autoencoder.py:469-521 | A broadcast failure is the stack builder's exception; a built stack has `len(nhids)` layers |
| Stacked.PlanLayersSucceeds | autoencoder.py:508-521 | A successful layer loop builds one layer per zipped argument tuple, with those constructor arguments and the class they select |
| Stacked.PlanLayersPrefixFailure | autoencoder.py:508-521 | The loop stops at the first failing layer, and its exception is the result |
| Stacked.PlanLayersStep | autoencoder.py:508-521 | Each step either fails with the layer's exception or appends that layer |
| Stacked.PlanWidths | autoencoder.py:494-511 | A built stack has `len(nhids)` layers; layer i has `nhids[i]` hidden units, `nvis` or `nhids[i-1]` visible units, and the shared generator |
| Stacked.PlanSettings | autoencoder.py:495-520 | Layer i gets the i-th value of every per-layer argument, and the class its objectives select |
| Stacked.PlanChains | autoencoder.py:494 | Each layer above the first has as many visible units as the layer below has hidden units |
| Stacked.ConflictingLayerRejected | autoencoder.py:512-514 | A stack where some layer has both a corruptor and the contracting flag is never built |
| Stacked.BuildLayers | autoencoder.py:507-521 | The loop fails exactly as the layer plan does; on success each layer is a fresh model in the initial state its arguments give |
| Stacked.BuildStackedAE | autoencoder.py:469-524 | Fails exactly when broadcasting or some layer fails, with that exception; otherwise `len(nhids)` fresh layers in order, layer i with `nhids[i]` hidden units, each above the first reading the width of the one below |
| Stacked.LayersChain | autoencoder.py:494-521 | Layers built from a chained plan have the plan's hidden sizes, and each layer's visible size is the previous layer's hidden size |

## Left out

- **`ContractingAutoencoder.contraction_penalty`** (lines 409-466) is left
  out. It rests on Theano's automatic differentiation and broadcasting.
  The contracting class is modelled only through its constructor's
  elementwise check.
- **The `is_pure_elemwise` probe** is a set of accepted callables. Its
  implementation is not part of this model.
- **`get`** (lines 528-534) is left out. It is a reflective lookup in the
  module's globals.
- **`StackedBlocks`** is not part of this model. `build_stacked_ae` returns
  the sequence of layers the wrapper would hold.
- **pylearn2/models/dbm.py** is left out. It is unfinished and is not valid
  Python.
- **Random values.** These are not modelled:
  - random weight values;
  - the seed drawn for the MRG `RandomStreams` (lines 104-105);
  - the number of draws taken from a shared generator.

  A parameter records only the generator it is drawn from.
- **`RandomState`'s checks on its seed** are not modelled. A `Seed` accepts
  every integer, negative ones included, though NumPy refuses seeds outside
  [0, 2**32).
- **Numeric tensors.** Tensor arithmetic is symbolic (`Node`). The
  regularisation term's numeric value assumes a valuation of nodes as real
  matrices. Floating-point precision (`floatX`) is not modelled.
- **`tensor.sum` over a list** of minibatches is modelled as the sum over
  every entry of every minibatch. Theano's conversion of the list to a tensor
  is not modelled.
- **Theano's own errors** are not modelled. For example, a `None` parameter
  is used in a graph before `set_visible_size`. Calling a non-callable
  activation at `encode` time raises in Python; the model keeps it as an
  `Apply` node of a non-callable object.
- **`__call__`** (lines 323-331) is the same function as `encode`, so it has
  no member of its own.
- **`_set_params`** (line 209) is called by `set_visible_size` but is not
  defined in this file. It is not part of this model. The model assumes the
  call returns normally, and the parameter list keeps the value it had at
  construction.
- **Exception messages.**
  - NumPy's, Theano's and the interpreter's `TypeError`/`AttributeError`
    messages are approximated. The exception classes are exact.
  - The module's own messages (assertions, `ValueError`s) are exact.
- **`Config.rng`: a supplied generator** (`Gen`) may be any object with a
  `randn` method. It is assumed to also have `rand` and `randint`.
- **Broadcasting of Python 2 `unicode` strings.** These have `__len__` and
  are not `str`, so they would be taken as sequences. The model has only
  `Scalar` and `Sequence` arguments, chosen by the caller.
- **`nhids` must be a list.** A tuple `nhids` makes `[nvis] + nhids[:-1]`
  raise. That is not modelled.
- Stacked.Broadcast: does not model dictionaries or arrays. An object with
  `__len__` is taken as a sequence only in the list/tuple sense, so a
  dictionary or array of matching length is not covered.
- Autoencoders.DenoisingReconstructAsWritten: requires a corruptor that
  never deepens a list (`KeepsDepth`). The as-written double corruption
  recurses on the corrupted list, and without that bound the recursion need
  not end.
- Autoencoders.Autoencoder.Reconstruct: for a denoising autoencoder given a
  list, it models the corrected single corruption. It does not model the
  re-corruption of every element through `self.reconstruct` (lines 300 and
  392). As written, the returned graph, `hiddens` and the cached term all
  come from re-corrupted elements. That as-written value is stated by
  `DenoisingReconstructAsWritten`, and `DenoisingCorruptsTwice` shows how it
  differs; the class method does not follow it.

## Findings

| source | as written | input that shows it | evidently intended | confidence | as-written member | corrected member |
|---|---|---|---|---|---|---|
| autoencoder.py:297-300 | The base `reconstruct` recurses over a list through `self.reconstruct`. In a `DenoisingAutoencoder` this is the override at lines 392-393, which corrupts again. So every minibatch of a list input is corrupted once per level of list nesting, plus once at the top. | A denoising autoencoder whose corruptor adds noise to every minibatch, given the list `[x]`. It reconstructs `x + noise + noise`. | Corrupt the input once (line 392), then run the base reconstruction on the corrupted input, recursing with the base method. | medium; not executed | Autoencoders.DenoisingCorruptsTwice | Autoencoders.DenoisingCorruptsOnce |
