/** The `Autoencoder` class and its denoising and contracting variants: the
    checks its constructor makes, the parameters it allocates, the one-shot
    completion of a model built without a visible size, and the symbolic
    graphs that `encode` and `reconstruct` build, with the regularisation term
    `reconstruct` caches on the instance. */
module Autoencoders {
  import opened Python
  import opened Graph
  import opened Sparsity

  /** What an `act_enc` / `act_dec` argument can be: `None`, a string naming a
      function, or any other Python object. */
  datatype ActSpec = NoneSpec | Str(name: string) | Obj(obj: PyObj)

  /** The namespaces in which an activation name is looked up: this module's
      globals, `theano.tensor.nnet` and `theano.tensor`, each a map from an
      attribute name to the object it holds. `elementwise` holds the callables
      whose application to a matrix `is_pure_elemwise` accepts. */
  datatype Env = Env(
    globals: map<string, PyObj>,
    nnet: map<string, PyObj>,
    tensor: map<string, PyObj>,
    elementwise: set<PyObj>)

  /** A resolved activation: `None` (linear units, applied as the identity) or
      the object found. */
  datatype Activation = Linear | Use(obj: PyObj)

  /** A corruptor: maps a minibatch, or a list of them, to its corrupted
      version. */
  type Corruptor = Nested<Node> -> Nested<Node>

  /** Which of the three classes is built. */
  datatype Variant = Plain | Denoising(corruptor: Corruptor) | Contracting

  /** The constructor's arguments. A seed given as `rng` is a `Seed`, a generator
      a `Gen`; `None` is a `RandomState` seeded by NumPy. */
  datatype Config = Config(
    nvis: int,
    nhid: int,
    actEnc: ActSpec,
    actDec: ActSpec,
    tiedWeights: bool,
    sparsity: SparsityConfig,
    irange: real,
    rng: Option<RngArg>)

  /** `_resolve_callable`: `None` and `"linear"` mean linear units; a callable
      is kept; a string is looked up first among this module's callable
      globals, then in `tensor.nnet`, then in `tensor` (an attribute found
      there is taken whether or not it can be called); a name found nowhere
      raises `ValueError`. Any other object is not a valid attribute name, so
      the `hasattr` lookup raises `TypeError`. */
  function ResolveCallable(spec: ActSpec, attr: string, env: Env): (r: Result<Activation>)
    ensures spec.NoneSpec? || spec == Str("linear") ==> r == Success(Linear)
    ensures spec.Obj? && spec.obj.Callable? ==> r == Success(Use(spec.obj))
    ensures spec.Obj? && spec.obj.NonCallable? ==> r.Failure? && r.error.TypeError?
    ensures spec.Str? && spec.name != "linear" ==>
      (r.Failure? <==>
        !(spec.name in env.globals && env.globals[spec.name].Callable?) &&
        spec.name !in env.nnet && spec.name !in env.tensor)
    ensures spec.Str? && r.Failure? ==>
      r.error == ValueError("Couldn't interpret " + attr + " value: '" + spec.name + "'")
    ensures spec.Str? && spec.name != "linear" && r.Success? ==> r.value.Use?
    ensures spec.Str? && spec.name != "linear" && spec.name in env.globals &&
            env.globals[spec.name].Callable? ==>
      r == Success(Use(env.globals[spec.name]))
    ensures spec.Str? && spec.name != "linear" && spec.name in env.nnet &&
            !(spec.name in env.globals && env.globals[spec.name].Callable?) ==>
      r == Success(Use(env.nnet[spec.name]))
    ensures spec.Str? && spec.name != "linear" && spec.name in env.tensor &&
            !(spec.name in env.globals && env.globals[spec.name].Callable?) && spec.name !in env.nnet ==>
      r == Success(Use(env.tensor[spec.name]))
  {
    match spec
    case NoneSpec => Success(Linear)
    case Obj(o) =>
      if o.Callable? then Success(Use(o))
      else Failure(TypeError("hasattr(): attribute name must be string"))
    case Str(name) =>
      if name == "linear" then Success(Linear)
      else if name in env.globals && env.globals[name].Callable? then Success(Use(env.globals[name]))
      else if name in env.nnet then Success(Use(env.nnet[name]))
      else if name in env.tensor then Success(Use(env.tensor[name]))
      else Failure(ValueError("Couldn't interpret " + attr + " value: '" + name + "'"))
  }

  /** Everything the constructor of `variant` checks, in the order it checks it,
      and on success the two resolved activations:
      1. `nvis >= 0` and then `nhid > 0` (assertions);
      2. tied weights with `nvis == 0` take `.T` of a `weights` that is `None`;
      3. `act_enc`, then `act_dec`, is resolved;
      4. a contracting autoencoder calls its encoder activation on a matrix
         and asks `is_pure_elemwise` about the result. */
  function Validate(cfg: Config, variant: Variant, env: Env): (r: Result<(Activation, Activation)>)
    ensures r.Success? <==>
      cfg.nvis >= 0 && cfg.nhid > 0 && !(cfg.tiedWeights && cfg.nvis == 0) &&
      ResolveCallable(cfg.actEnc, "act_enc", env).Success? &&
      ResolveCallable(cfg.actDec, "act_dec", env).Success? &&
      (variant.Contracting? ==>
         var enc := ResolveCallable(cfg.actEnc, "act_enc", env).value;
         enc.Use? && enc.obj.Callable? && enc.obj in env.elementwise)
    ensures r.Success? ==>
      r.value == (ResolveCallable(cfg.actEnc, "act_enc", env).value,
                  ResolveCallable(cfg.actDec, "act_dec", env).value)
  {
    if cfg.nvis < 0 then Failure(AssertionError("Number of visible units must be non-negative"))
    else if cfg.nhid <= 0 then Failure(AssertionError("Number of hidden units must be positive"))
    else if cfg.tiedWeights && cfg.nvis == 0 then Failure(AttributeError("'NoneType' object has no attribute 'T'"))
    else
      var enc :- ResolveCallable(cfg.actEnc, "act_enc", env);
      var dec :- ResolveCallable(cfg.actDec, "act_dec", env);
      if !variant.Contracting? then Success((enc, dec))
      else
        match enc
        case Linear => Failure(TypeError("'NoneType' object is not callable"))
        case Use(f) =>
          if f.NonCallable? then Failure(TypeError("'" + f.id + "' object is not callable"))
          else if f in env.elementwise then Success((enc, dec))
          else Failure(ValueError("Invalid encoder activation function: not an elementwise function of its input"))
  }

  /** Construction fails, with an assertion, exactly when a size is out of
      range; and a built model has a positive hidden size, a non-negative
      visible size, and a visible size for tied weights to transpose. */
  lemma ConstructionSizes(cfg: Config, variant: Variant, env: Env)
    ensures cfg.nvis < 0 || cfg.nhid <= 0 <==>
      Validate(cfg, variant, env).Failure? && Validate(cfg, variant, env).error.AssertionError?
    ensures Validate(cfg, variant, env).Success? ==>
      cfg.nvis >= 0 && cfg.nhid > 0 && !(cfg.tiedWeights && cfg.nvis == 0)
    ensures cfg.nvis >= 0 && cfg.nhid > 0 && cfg.tiedWeights && cfg.nvis == 0 ==>
      Validate(cfg, variant, env).Failure? && Validate(cfg, variant, env).error.AttributeError?
  {
    if cfg.nvis >= 0 && cfg.nhid > 0 {
      var enc := ResolveCallable(cfg.actEnc, "act_enc", env);
      var dec := ResolveCallable(cfg.actDec, "act_dec", env);
    }
  }

  /** An activation name that resolves nowhere is refused by the constructor,
      with the `ValueError` naming the argument, once the sizes are accepted. */
  lemma UnknownActivationFailsAtConstruction(cfg: Config, variant: Variant, env: Env)
    requires cfg.nvis >= 0 && cfg.nhid > 0 && !(cfg.tiedWeights && cfg.nvis == 0)
    requires cfg.actEnc.Str? && cfg.actEnc.name != "linear"
    requires !(cfg.actEnc.name in env.globals && env.globals[cfg.actEnc.name].Callable?)
    requires cfg.actEnc.name !in env.nnet && cfg.actEnc.name !in env.tensor
    ensures Validate(cfg, variant, env)
         == Failure(ValueError("Couldn't interpret act_enc value: '" + cfg.actEnc.name + "'"))
  {
    var r := ResolveCallable(cfg.actEnc, "act_enc", env);
    assert r.Failure?;
  }

  /** A contracting autoencoder is only built around a callable encoder
      activation that is an elementwise function of its input. */
  lemma ContractingNeedsElementwise(cfg: Config, env: Env)
    ensures Validate(cfg, Contracting, env).Success? ==>
      var enc := Validate(cfg, Contracting, env).value.0;
      enc.Use? && enc.obj.Callable? && enc.obj in env.elementwise
    ensures Validate(cfg, Contracting, env).Success? ==>
      Validate(cfg, Plain, env).Success? &&
      Validate(cfg, Plain, env).value == Validate(cfg, Contracting, env).value
  {
  }

  /** Applies a resolved activation; linear units apply the identity. */
  function Activate(a: Activation, x: Node): Node
  {
    match a
    case Linear => x
    case Use(f) => Apply(f, x)
  }

  /** One side of the autoencoder: an activation applied to
      `bias + dot(x, weights)`. The encoder is `(act_enc, hidbias, weights)`,
      the decoder `(act_dec, visbias, w_prime)`. */
  datatype Layer = Layer(act: Activation, bias: Option<Param>, weights: Option<Param>)

  /** The graph a layer builds for one minibatch `x`. */
  function Forward(l: Layer, x: Node): Node
  {
    Activate(l.act, Plus(Shared(l.bias), Dot(x, Shared(l.weights))))
  }

  /** A layer applied to a minibatch, or recursively to every element of a
      list, keeping the list structure. */
  function Propagate(l: Layer, n: Nested<Node>): (r: Nested<Node>)
    ensures SameNesting(n, r)
  {
    match n
    case Batch(x) => Batch(Forward(l, x))
    case Batches(items) => Batches(seq(|items|, i requires 0 <= i < |items| => Propagate(l, items[i])))
  }

  /** A layer applied to each minibatch of a sequence. */
  function ForwardAll(l: Layer, s: seq<Node>): (r: seq<Node>)
    ensures |r| == |s|
  {
    if |s| == 0 then [] else [Forward(l, s[0])] + ForwardAll(l, s[1..])
  }

  lemma {:induction false} ForwardAllAppend(l: Layer, a: seq<Node>, b: seq<Node>)
    ensures ForwardAll(l, a + b) == ForwardAll(l, a) + ForwardAll(l, b)
  {
    if |a| == 0 {
      assert a + b == b;
    } else {
      assert (a + b)[1..] == a[1..] + b;
      ForwardAllAppend(l, a[1..], b);
    }
  }

  lemma {:induction false} ForwardAllConcat(l: Layer, ss: seq<seq<Node>>, ts: seq<seq<Node>>)
    requires |ts| == |ss| && forall i :: 0 <= i < |ss| ==> ts[i] == ForwardAll(l, ss[i])
    ensures Concat(ts) == ForwardAll(l, Concat(ss))
  {
    if |ss| > 0 {
      ForwardAllConcat(l, ss[1..], ts[1..]);
      ForwardAllAppend(l, ss[0], Concat(ss[1..]));
    }
  }

  lemma {:induction false} ForwardAllIndex(l: Layer, s: seq<Node>)
    ensures forall i :: 0 <= i < |s| ==> ForwardAll(l, s)[i] == Forward(l, s[i])
  {
    if |s| > 0 {
      ForwardAllIndex(l, s[1..]);
    }
  }

  /** The minibatches of a propagated list are those of the input, each
      propagated, in the same order. */
  lemma {:induction false} PropagateLeaves(l: Layer, n: Nested<Node>)
    ensures Leaves(Propagate(l, n)) == ForwardAll(l, Leaves(n))
    ensures forall i :: 0 <= i < |Leaves(n)| ==> Leaves(Propagate(l, n))[i] == Forward(l, Leaves(n)[i])
    decreases n
  {
    match n {
      case Batch(x) =>
        assert ForwardAll(l, [x]) == [Forward(l, x)] + ForwardAll(l, []);
      case Batches(items) =>
        var out := Propagate(l, n).items;
        var ss := seq(|items|, i requires 0 <= i < |items| => Leaves(items[i]));
        var ts := seq(|out|, i requires 0 <= i < |out| => Leaves(out[i]));
        forall i | 0 <= i < |items| ensures ts[i] == ForwardAll(l, ss[i]) {
          PropagateLeaves(l, items[i]);
        }
        ForwardAllConcat(l, ss, ts);
    }
    ForwardAllIndex(l, Leaves(n));
  }

  /** Encoding followed by decoding, minibatch by minibatch, keeping the list
      structure: what the base `reconstruct` returns. */
  function RoundTrip(enc: Layer, dec: Layer, n: Nested<Node>): Nested<Node>
  {
    match n
    case Batch(x) => Batch(Forward(dec, Forward(enc, x)))
    case Batches(items) => Batches(seq(|items|, i requires 0 <= i < |items| => RoundTrip(enc, dec, items[i])))
  }

  /** The reconstruction is the decoder applied to the encoding, so it keeps
      the structure of the input and the order of its minibatches. */
  lemma {:induction false} RoundTripDecodesEncoding(enc: Layer, dec: Layer, n: Nested<Node>)
    ensures RoundTrip(enc, dec, n) == Propagate(dec, Propagate(enc, n))
    ensures SameNesting(n, RoundTrip(enc, dec, n))
    ensures Leaves(RoundTrip(enc, dec, n)) == ForwardAll(dec, ForwardAll(enc, Leaves(n)))
    decreases n
  {
    match n {
      case Batch(x) =>
      case Batches(items) =>
        var lhs := RoundTrip(enc, dec, n).items;
        var rhs := Propagate(dec, Propagate(enc, n)).items;
        forall i | 0 <= i < |items| ensures lhs[i] == rhs[i] && SameNesting(items[i], lhs[i]) {
          RoundTripDecodesEncoding(enc, dec, items[i]);
        }
        assert lhs == rhs;
    }
    PropagateLeaves(enc, n);
    PropagateLeaves(dec, Propagate(enc, n));
  }

  /** A corruptor that never makes a list deeper, as corruptors that map over
      the minibatches of a list do. */
  ghost predicate KeepsDepth(c: Corruptor)
  {
    forall n :: Depth(c(n)) <= Depth(n)
  }

  /** `DenoisingAutoencoder.reconstruct` as written: it corrupts its input and
      calls the base `reconstruct`, whose list branch calls `self.reconstruct`
      on every element; `self` is the denoising autoencoder, so each element is
      corrupted again, once per level of list nesting. */
  function DenoisingReconstructAsWritten(c: Corruptor, enc: Layer, dec: Layer, inputs: Nested<Node>): (r: Nested<Node>)
    requires KeepsDepth(c)
    ensures (forall n :: c(n) == n) ==> r == RoundTrip(enc, dec, inputs)
    decreases Depth(inputs), 1
  {
    BaseReconstructAsWritten(c, enc, dec, c(inputs))
  }

  /** The base `reconstruct` as it runs inside a denoising autoencoder: one
      reconstruction per element of a list, and with a corruptor that changes
      nothing, the plain reconstruction. */
  function BaseReconstructAsWritten(c: Corruptor, enc: Layer, dec: Layer, m: Nested<Node>): (r: Nested<Node>)
    requires KeepsDepth(c)
    ensures m.Batch? == r.Batch?
    ensures m.Batches? ==> |r.items| == |m.items|
    ensures (forall n :: c(n) == n) ==> r == RoundTrip(enc, dec, m)
    decreases Depth(m), 0
  {
    match m
    case Batch(x) => Batch(Forward(dec, Forward(enc, x)))
    case Batches(items) =>
      Batches(seq(|items|, i requires 0 <= i < |items| => DenoisingReconstructAsWritten(c, enc, dec, items[i])))
  }

  /** Gaussian-style additive noise on every minibatch. */
  function AddNoise(n: Nested<Node>): Nested<Node>
  {
    MapLeaves(x => Plus(x, Input("noise")), n)
  }

  /** Corruption by AddNoise keeps the depth of a list. */
  lemma AddNoiseKeepsDepth()
    ensures KeepsDepth(AddNoise)
  {
    forall n: Nested<Node> ensures Depth(AddNoise(n)) <= Depth(n) {
      SameNestingSameDepth(n, AddNoise(n));
    }
  }

  /** Linear units with no parameters: the layer reconstructs `x` as
      `None + dot(x, None)`, enough to see how often the input was corrupted. */
  const Bare: Layer := Layer(Linear, None, None)

  /** On a list holding one minibatch `x`, the code as written adds the noise
      twice, while corrupting the input once and reconstructing it with the
      base method adds it once. */
  lemma DenoisingCorruptsTwice()
    ensures KeepsDepth(AddNoise)
    ensures var inputs := Batches([Batch(Input("x"))]);
            var once := Plus(Input("x"), Input("noise"));
            var twice := Plus(once, Input("noise"));
            DenoisingReconstructAsWritten(AddNoise, Bare, Bare, inputs) == Batches([Batch(Forward(Bare, Forward(Bare, twice)))]) &&
            RoundTrip(Bare, Bare, AddNoise(inputs)) == Batches([Batch(Forward(Bare, Forward(Bare, once)))]) &&
            DenoisingReconstructAsWritten(AddNoise, Bare, Bare, inputs) != RoundTrip(Bare, Bare, AddNoise(inputs))
  {
    AddNoiseKeepsDepth();
    var inputs := Batches([Batch(Input("x"))]);
    var once := Plus(Input("x"), Input("noise"));
    var twice := Plus(once, Input("noise"));
    assert AddNoise(inputs) == Batches([Batch(once)]);
    assert AddNoise(Batch(once)) == Batch(twice);
    assert DenoisingReconstructAsWritten(AddNoise, Bare, Bare, Batch(once))
        == Batch(Forward(Bare, Forward(Bare, twice)));
    assert BaseReconstructAsWritten(AddNoise, Bare, Bare, Batches([Batch(once)]))
        == Batches([Batch(Forward(Bare, Forward(Bare, twice)))]);
    assert RoundTrip(Bare, Bare, Batches([Batch(once)])) == Batches([Batch(Forward(Bare, Forward(Bare, once)))]);
    assert Forward(Bare, Forward(Bare, twice)) != Forward(Bare, Forward(Bare, once));
  }

  /** The intended `DenoisingAutoencoder.reconstruct`: corrupt the input once,
      then encode and decode every minibatch of the corrupted input. */
  function DenoisingReconstruct(c: Corruptor, enc: Layer, dec: Layer, inputs: Nested<Node>): (r: Nested<Node>)
    ensures SameNesting(c(inputs), r)
    ensures Leaves(r) == ForwardAll(dec, ForwardAll(enc, Leaves(c(inputs))))
  {
    RoundTripDecodesEncoding(enc, dec, c(inputs));
    RoundTrip(enc, dec, c(inputs))
  }

  /** With a corruptor that corrupts each minibatch of a list by `noise`, the
      intended reconstruction keeps the structure of the input, and its i-th
      minibatch is the reconstruction of the i-th input minibatch corrupted
      exactly once. */
  lemma DenoisingCorruptsOnce(noise: Node -> Node, enc: Layer, dec: Layer, inputs: Nested<Node>)
    ensures var r := DenoisingReconstruct(n => MapLeaves(noise, n), enc, dec, inputs);
      SameNesting(inputs, r) &&
      |Leaves(r)| == |Leaves(inputs)| &&
      forall i :: 0 <= i < |Leaves(inputs)| ==>
        Leaves(r)[i] == Forward(dec, Forward(enc, noise(Leaves(inputs)[i])))
  {
    var corrupted := MapLeaves(noise, inputs);
    RoundTripDecodesEncoding(enc, dec, corrupted);
    SameNestingTrans(inputs, corrupted, RoundTrip(enc, dec, corrupted));
    LeavesOfMapLeaves(noise, inputs);
    var ls := Leaves(corrupted);
    ForwardAllIndex(enc, ls);
    ForwardAllIndex(dec, ForwardAll(enc, ls));
  }

  /** An autoencoder of any of the three variants. `rng` holds what the
      constructor made of its `rng` argument, or what `set_visible_size`
      stored there since. */
  class Autoencoder {
    const nhid: nat
    const irange: real
    const tiedWeights: bool
    const actEnc: Activation
    const actDec: Activation
    const sparsity: SparsityConfig
    const variant: Variant

    var rng: RngArg
    var hidbias: Param
    var visbias: Option<Param>
    var weights: Option<Param>
    var wPrime: Param
    var params: seq<Option<Param>>
    var hiddens: Option<Nested<Node>>
    var regularization: Penalty

    /** The number of visible units the parameters are sized for (0 while the
        weights are not allocated). */
    function VisibleSize(): nat
      reads this`weights
    {
      if weights.Some? && weights.value.Uniform? then weights.value.rows else 0
    }

    /** The shapes the parameters keep. */
    ghost predicate Valid()
      reads this`hidbias, this`visbias, this`weights, this`wPrime
    {
      nhid > 0 &&
      hidbias == Zeros("hb", nhid) &&
      (visbias.Some? ==> visbias.value.Zeros? && visbias.value.name == "vb") &&
      (weights.Some? ==>
         weights.value.Uniform? && weights.value.name == "W" &&
         weights.value.cols == nhid && weights.value.scale == irange &&
         visbias == Some(Zeros("vb", weights.value.rows))) &&
      (tiedWeights ==> weights.Some? && wPrime == Transposed(weights.value)) &&
      (!tiedWeights ==>
         wPrime.Uniform? && wPrime.name == "Wprime" && wPrime.rows == nhid &&
         wPrime.cols == VisibleSize() && wPrime.scale == irange)
    }

    /** The state `__init__` leaves behind for arguments `cfg`. */
    ghost predicate Initialised(cfg: Config, v: Variant, env: Env)
      requires Validate(cfg, v, env).Success?
      reads this
    {
      var acts := Validate(cfg, v, env).value;
      var g := ToGenerator(cfg.rng);
      nhid == cfg.nhid && irange == cfg.irange && tiedWeights == cfg.tiedWeights &&
      actEnc == acts.0 && actDec == acts.1 && sparsity == cfg.sparsity && variant == v &&
      rng == Gen(g) &&
      hidbias == Zeros("hb", nhid) &&
      (if cfg.nvis > 0 then
         visbias == Some(Zeros("vb", cfg.nvis)) && weights == Some(Uniform("W", cfg.nvis, nhid, irange, g))
       else
         visbias == None && weights == None) &&
      wPrime == (if tiedWeights then Transposed(weights.value) else Uniform("Wprime", nhid, cfg.nvis, irange, g)) &&
      params == [visbias, Some(hidbias), weights] + (if tiedWeights then [] else [Some(wPrime)]) &&
      hiddens == None && regularization == NoPenalty
    }

    /** `__init__`, for arguments it accepts; `Create` covers the others. */
    constructor (cfg: Config, v: Variant, env: Env)
      requires Validate(cfg, v, env).Success?
      ensures Valid() && Initialised(cfg, v, env)
    {
      ConstructionSizes(cfg, v, env);
      var acts := Validate(cfg, v, env).value;
      nhid := cfg.nhid;
      irange := cfg.irange;
      tiedWeights := cfg.tiedWeights;
      actEnc := acts.0;
      actDec := acts.1;
      sparsity := cfg.sparsity;
      variant := v;
      new;
      rng := Gen(ToGenerator(cfg.rng));
      InitializeHidbias();
      if cfg.nvis > 0 {
        var _ := InitializeVisbias(cfg.nvis);
        var _ := InitializeWeights(cfg.nvis, None, None);
      } else {
        visbias := None;
        weights := None;
      }
      if tiedWeights {
        wPrime := Transposed(weights.value);
      } else {
        var _ := InitializeWPrime(cfg.nvis, None, None);
      }
      params := [visbias, Some(hidbias), weights];
      if !tiedWeights {
        params := params + [Some(wPrime)];
      }
      hiddens := None;
      regularization := NoPenalty;
    }

    /** Calls the constructor of `v`: the exception it raises, or the new
        model. */
    static method Create(cfg: Config, v: Variant, env: Env) returns (r: Result<Autoencoder>)
      ensures r.Failure? <==> Validate(cfg, v, env).Failure?
      ensures r.Failure? ==> r.error == Validate(cfg, v, env).error
      ensures r.Success? ==> fresh(r.value) && r.value.Valid() && r.value.Initialised(cfg, v, env)
    {
      var check := Validate(cfg, v, env);
      if check.Failure? {
        return Failure(check.error);
      }
      var ae := new Autoencoder(cfg, v, env);
      return Success(ae);
    }

    /** `_initialize_hidbias`: a zero vector of length `nhid`. */
    method InitializeHidbias()
      modifies this`hidbias
      ensures hidbias == Zeros("hb", nhid)
    {
      hidbias := Zeros("hb", nhid);
    }

    /** `_initialize_visbias(nvis)`: a zero vector of length `nvis`; NumPy
        refuses a negative length. */
    method InitializeVisbias(nvis: int) returns (err: Option<Error>)
      modifies this`visbias
      ensures nvis < 0 ==> err == Some(ValueError("negative dimensions are not allowed")) && visbias == old(visbias)
      ensures nvis >= 0 ==> err == None && visbias == Some(Zeros("vb", nvis))
    {
      if nvis < 0 {
        return Some(ValueError("negative dimensions are not allowed"));
      }
      visbias := Some(Zeros("vb", nvis));
      return None;
    }

    /** The generator an `_initialize_*` helper draws from: its `rng` argument,
        or the stored one. A seed has no `rand` method. */
    function DrawSource(rngArg: Option<RngArg>): (r: Result<Generator>)
      reads this`rng
      ensures rngArg.None? && rng.Gen? ==> r == Success(rng.gen)
      ensures rngArg.Some? && rngArg.value.Gen? ==> r == Success(rngArg.value.gen)
      ensures r.Failure? <==> (if rngArg.Some? then rngArg.value else rng).Seed?
    {
      match (if rngArg.Some? then rngArg.value else rng)
      case Gen(g) => Success(g)
      case Seed(_) => Failure(AttributeError("'int' object has no attribute 'rand'"))
    }

    /** `_initialize_weights(nvis, rng, irange)`: an `nvis` by `nhid` matrix
        drawn from `rng` (or the stored generator). The `irange` argument is
        accepted but the stored `irange` is always used. */
    method InitializeWeights(nvis: int, rngArg: Option<RngArg>, irangeArg: Option<real>) returns (err: Option<Error>)
      modifies this`weights
      ensures DrawSource(rngArg).Failure? ==> err == Some(DrawSource(rngArg).error) && weights == old(weights)
      ensures DrawSource(rngArg).Success? && nvis < 0 ==>
        err == Some(ValueError("negative dimensions are not allowed")) && weights == old(weights)
      ensures DrawSource(rngArg).Success? && nvis >= 0 ==>
        err == None && weights == Some(Uniform("W", nvis, nhid, irange, DrawSource(rngArg).value))
    {
      var source := DrawSource(rngArg);
      if source.Failure? {
        return Some(source.error);
      }
      if nvis < 0 {
        return Some(ValueError("negative dimensions are not allowed"));
      }
      weights := Some(Uniform("W", nvis, nhid, irange, source.value));
      return None;
    }

    /** `_initialize_w_prime(nvis, rng, irange)`: an `nhid` by `nvis` matrix. Its
        guard against tied weights is an assertion of a non-empty tuple, which
        always holds, so it checks nothing. */
    method InitializeWPrime(nvis: int, rngArg: Option<RngArg>, irangeArg: Option<real>) returns (err: Option<Error>)
      modifies this`wPrime
      ensures DrawSource(rngArg).Failure? ==> err == Some(DrawSource(rngArg).error) && wPrime == old(wPrime)
      ensures DrawSource(rngArg).Success? && nvis < 0 ==>
        err == Some(ValueError("negative dimensions are not allowed")) && wPrime == old(wPrime)
      ensures DrawSource(rngArg).Success? && nvis >= 0 ==>
        var scale := if irangeArg.Some? then irangeArg.value else irange;
        err == None && wPrime == Uniform("Wprime", nhid, nvis, scale, DrawSource(rngArg).value)
    {
      var source := DrawSource(rngArg);
      if source.Failure? {
        return Some(source.error);
      }
      if nvis < 0 {
        return Some(ValueError("negative dimensions are not allowed"));
      }
      var scale := if irangeArg.Some? then irangeArg.value else irange;
      wPrime := Uniform("Wprime", nhid, nvis, scale, source.value);
      return None;
    }

    /** `set_visible_size(nvis, rng)`: completes a model built without a visible
        size, once. A model whose weights exist is left as it is. Otherwise a
        given `rng` replaces the stored one (as given: a seed stays a seed), and
        the visible biases, the weights and (untied) `w_prime` are allocated in
        that order; an exception leaves what was allocated before it. */
    method SetVisibleSize(nvis: int, rngArg: Option<RngArg>) returns (err: Option<Error>)
      requires Valid()
      modifies this`rng, this`visbias, this`weights, this`wPrime
      ensures Valid()
      ensures old(weights).Some? ==>
        err == Some(ValueError("parameters of this model already initialized; create a new object instead")) &&
        rng == old(rng) && visbias == old(visbias) && weights == old(weights) && wPrime == old(wPrime)
      ensures old(weights).None? ==>
        var source := if rngArg.Some? then rngArg.value else old(rng);
        rng == source &&
        (if nvis < 0 then
           err == Some(ValueError("negative dimensions are not allowed")) &&
           visbias == old(visbias) && weights == None && wPrime == old(wPrime)
         else if source.Seed? then
           err == Some(AttributeError("'int' object has no attribute 'rand'")) &&
           visbias == Some(Zeros("vb", nvis)) && weights == None && wPrime == old(wPrime)
         else
           err == None &&
           visbias == Some(Zeros("vb", nvis)) &&
           weights == Some(Uniform("W", nvis, nhid, irange, source.gen)) &&
           wPrime == Uniform("Wprime", nhid, nvis, irange, source.gen))
      ensures tiedWeights ==> err.Some?
      ensures err.None? ==> weights.Some? && VisibleSize() == nvis
    {
      if weights.Some? {
        return Some(ValueError("parameters of this model already initialized; create a new object instead"));
      }
      var source := rng;
      if rngArg.Some? {
        rng := rngArg.value;
        source := rngArg.value;
      }
      err := InitializeVisbias(nvis);
      if err.Some? {
        return;
      }
      err := InitializeWeights(nvis, Some(source), None);
      if err.Some? {
        return;
      }
      err := InitializeWPrime(nvis, Some(source), None);
    }

    /** The encoder, with the current parameters. */
    function EncoderLayer(): Layer
      reads this`hidbias, this`weights
    {
      Layer(actEnc, Some(hidbias), weights)
    }

    /** The decoder, with the current parameters. */
    function DecoderLayer(): Layer
      reads this`visbias, this`wPrime
    {
      Layer(actDec, visbias, Some(wPrime))
    }

    /** `encode(inputs)`: a minibatch is encoded; a list is encoded element by
        element, recursively. */
    function Encode(inputs: Nested<Node>): (r: Nested<Node>)
      reads this`hidbias, this`weights
      ensures SameNesting(inputs, r)
    {
      Propagate(EncoderLayer(), inputs)
    }

    /** What the base `reconstruct(inputs)` returns. */
    function Reconstruction(inputs: Nested<Node>): (r: Nested<Node>)
      reads this`hidbias, this`weights, this`visbias, this`wPrime
    {
      RoundTrip(EncoderLayer(), DecoderLayer(), inputs)
    }

    /** The graph `__init__` arranges for one minibatch `x`: linear units
        (`None` or `"linear"`) give `hidbias + dot(x, weights)` itself; a
        callable, or the name of a callable global, is called on it. */
    lemma EncoderGraph(cfg: Config, v: Variant, env: Env, x: Node)
      requires Validate(cfg, v, env).Success? && Initialised(cfg, v, env)
      ensures cfg.actEnc.NoneSpec? || cfg.actEnc == Str("linear") ==>
        Encode(Batch(x)) == Batch(Plus(Shared(Some(hidbias)), Dot(x, Shared(weights))))
      ensures cfg.actEnc.Obj? && cfg.actEnc.obj.Callable? ==>
        Encode(Batch(x)) == Batch(Apply(cfg.actEnc.obj, Plus(Shared(Some(hidbias)), Dot(x, Shared(weights)))))
      ensures cfg.actEnc.Str? && cfg.actEnc.name != "linear" && cfg.actEnc.name in env.globals &&
              env.globals[cfg.actEnc.name].Callable? ==>
        Encode(Batch(x)) == Batch(Apply(env.globals[cfg.actEnc.name], Plus(Shared(Some(hidbias)), Dot(x, Shared(weights)))))
      ensures cfg.nvis > 0 ==>
        weights == Some(Uniform("W", cfg.nvis, cfg.nhid, cfg.irange, ToGenerator(cfg.rng)))
    {
    }

    /** `encode` on a list returns a list of the same shape whose minibatches
        are those of the input, each encoded, in order; the reconstruction is
        the decoding of the encoding, of the same shape again. */
    lemma EncodeAndReconstructStructure(inputs: Nested<Node>)
      ensures SameNesting(inputs, Encode(inputs))
      ensures |Leaves(Encode(inputs))| == |Leaves(inputs)|
      ensures forall i :: 0 <= i < |Leaves(inputs)| ==>
        Leaves(Encode(inputs))[i] == Forward(EncoderLayer(), Leaves(inputs)[i])
      ensures Reconstruction(inputs) == Propagate(DecoderLayer(), Encode(inputs))
      ensures SameNesting(inputs, Reconstruction(inputs))
    {
      PropagateLeaves(EncoderLayer(), inputs);
      RoundTripDecodesEncoding(EncoderLayer(), DecoderLayer(), inputs);
    }

    /** `compute_regularization(hiddens)` with this model's settings. */
    function ComputeRegularization(h: Nested<Node>): (r: Result<Penalty>)
      ensures r.Failure? ==> r.error.TypeError?
      ensures sparsity.solution != Some("l1_penalty") && sparsity.solution != Some("sqr_penalty") ==>
        r == Success(NoPenalty)
    {
      Regularization(sparsity, h)
    }

    /** `compute_penalty_value()`: the term the last `reconstruct` stored. */
    function ComputePenaltyValue(): Penalty
      reads this`regularization
    {
      regularization
    }

    /** The base `reconstruct(inputs)`. It stores the encoding of `inputs` in
        `hiddens`, then the regularisation term of that encoding; a list is then
        reconstructed element by element, each call overwriting both again, so
        they end up describing the last minibatch (or empty list) reached. */
    method ReconstructBase(inputs: Nested<Node>) returns (r: Result<Nested<Node>>)
      requires Valid()
      modifies this`hiddens, this`regularization
      ensures Valid()
      ensures r.Success? <==> ComputeRegularization(Encode(inputs)).Success?
      ensures r.Failure? ==>
        r.error == ComputeRegularization(Encode(inputs)).error &&
        hiddens == Some(Encode(inputs)) && regularization == old(regularization)
      ensures r.Success? ==>
        r.value == Reconstruction(inputs) &&
        hiddens == Some(Encode(LastCall(inputs))) &&
        ComputeRegularization(Encode(LastCall(inputs))).Success? &&
        ComputePenaltyValue() == ComputeRegularization(Encode(LastCall(inputs))).value
      decreases inputs
    {
      var h := Encode(inputs);
      hiddens := Some(h);
      var reg := ComputeRegularization(h);
      if reg.Failure? {
        return Failure(reg.error);
      }
      regularization := reg.value;
      match inputs
      case Batch(x) =>
        r := Success(Batch(Forward(DecoderLayer(), h.x)));
      case Batches(items) =>
        var out: seq<Nested<Node>> := [];
        var k := 0;
        while k < |items|
          invariant 0 <= k <= |items|
          invariant Valid()
          invariant |out| == k && forall j :: 0 <= j < k ==> out[j] == Reconstruction(items[j])
          invariant k == 0 ==> hiddens == Some(h) && regularization == reg.value
          invariant k > 0 ==>
            hiddens == Some(Encode(LastCall(items[k - 1]))) &&
            ComputeRegularization(Encode(LastCall(items[k - 1]))).Success? &&
            regularization == ComputeRegularization(Encode(LastCall(items[k - 1]))).value
        {
          RegularizationOfListSucceeds(sparsity, h, Encode(items[k]));
          var rk := ReconstructBase(items[k]);
          out := out + [rk.value];
          k := k + 1;
        }
        if k == 0 {
          assert LastCall(inputs) == inputs;
        }
        assert out == Reconstruction(inputs).items;
        r := Success(Batches(out));
    }

    /** `reconstruct(inputs)` of this model's class, with the denoising
        override corrected: a denoising autoencoder corrupts its input once and
        reconstructs the corrupted input with the base method. The code as
        written corrupts list elements again; `DenoisingReconstructAsWritten`
        models that. */
    method Reconstruct(inputs: Nested<Node>) returns (r: Result<Nested<Node>>)
      requires Valid()
      modifies this`hiddens, this`regularization
      ensures Valid()
      ensures var seen := if variant.Denoising? then variant.corruptor(inputs) else inputs;
        (r.Success? <==> ComputeRegularization(Encode(seen)).Success?) &&
        (r.Success? ==>
           r.value == Reconstruction(seen) &&
           hiddens == Some(Encode(LastCall(seen))) &&
           ComputePenaltyValue() == ComputeRegularization(Encode(LastCall(seen))).value) &&
        (r.Failure? ==>
           r.error == ComputeRegularization(Encode(seen)).error &&
           hiddens == Some(Encode(seen)) && regularization == old(regularization))
      ensures r.Success? && variant.Denoising? ==>
        r.value == DenoisingReconstruct(variant.corruptor, EncoderLayer(), DecoderLayer(), inputs)
    {
      if variant.Denoising? {
        var corrupted := variant.corruptor(inputs);
        r := ReconstructBase(corrupted);
      } else {
        r := ReconstructBase(inputs);
      }
    }

    /** A built model has the parameter shapes its constructor promises. */
    lemma ConstructedShapes(cfg: Config, v: Variant, env: Env)
      requires Validate(cfg, v, env).Success? && Initialised(cfg, v, env)
      ensures Shape(hidbias) == [cfg.nhid]
      ensures cfg.nvis > 0 ==>
        visbias.Some? && Shape(visbias.value) == [cfg.nvis] &&
        weights.Some? && Shape(weights.value) == [cfg.nvis, cfg.nhid] &&
        Shape(wPrime) == [cfg.nhid, cfg.nvis]
      ensures cfg.nvis == 0 ==> visbias == None && weights == None
      ensures params[..3] == [visbias, Some(hidbias), weights]
      ensures |params| == if cfg.tiedWeights then 3 else 4
      ensures !cfg.tiedWeights ==> params[3] == Some(wPrime)
    {
      ConstructionSizes(cfg, v, env);
      if cfg.nvis > 0 && cfg.tiedWeights {
        TransposedShape(weights.value);
      }
    }
  }
}
