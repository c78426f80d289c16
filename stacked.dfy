/** `build_stacked_ae`: one autoencoder per entry of `nhids`, each hyperparameter
    given once for every layer or as a sequence with one value per layer, the
    layer widths chained so that every layer reads the hidden units of the one
    below, and a random generator shared by all of them. */
module Stacked {
  import opened Python
  import opened Graph
  import opened Sparsity
  import opened Autoencoders

  /** A per-layer argument: one value for every layer, or a sequence with one
      value per layer. A Python `str` is one value even though it has a
      length; any other object with a length is a sequence. */
  datatype PerLayer<T> = Scalar(value: T) | Sequence(values: seq<T>)

  /** The broadcast step: a single value is repeated `n` times; a sequence must
      have length `n` (a bare `assert`, so the message is empty). */
  function Broadcast<T>(arg: PerLayer<T>, n: nat): (r: Result<seq<T>>)
    ensures r.Success? <==> arg.Scalar? || |arg.values| == n
    ensures r.Failure? ==> r.error == AssertionError("")
    ensures r.Success? ==> |r.value| == n
    ensures r.Success? && arg.Scalar? ==> forall i :: 0 <= i < n ==> r.value[i] == arg.value
    ensures r.Success? && arg.Sequence? ==> r.value == arg.values
  {
    match arg
    case Scalar(v) => Success(seq(n, _ => v))
    case Sequence(vs) => if |vs| == n then Success(vs) else Failure(AssertionError(""))
  }

  /** The arguments of `build_stacked_ae`. */
  datatype StackArgs = StackArgs(
    nvis: int,
    nhids: seq<int>,
    actEnc: PerLayer<ActSpec>,
    actDec: PerLayer<ActSpec>,
    tiedWeights: PerLayer<bool>,
    irange: PerLayer<real>,
    rng: Option<RngArg>,
    corruptor: PerLayer<Option<Corruptor>>,
    contracting: PerLayer<bool>,
    solution: PerLayer<Option<string>>,
    sparsePenalty: PerLayer<Option<real>>,
    sparsityTarget: PerLayer<Option<real>>,
    sparsityTargetPenalty: PerLayer<Option<real>>)

  /** The `final` dictionary: every per-layer argument as a sequence. */
  datatype Finals = Finals(
    corruptor: seq<Option<Corruptor>>,
    contracting: seq<bool>,
    actEnc: seq<ActSpec>,
    actDec: seq<ActSpec>,
    tiedWeights: seq<bool>,
    irange: seq<real>,
    solution: seq<Option<string>>,
    sparsePenalty: seq<Option<real>>,
    sparsityTarget: seq<Option<real>>,
    sparsityTargetPenalty: seq<Option<real>>)

  /** Every sequence of the dictionary has one entry per layer. */
  predicate FinalsSized(f: Finals, n: nat)
  {
    |f.corruptor| == n && |f.contracting| == n && |f.actEnc| == n && |f.actDec| == n &&
    |f.tiedWeights| == n && |f.irange| == n && |f.solution| == n &&
    |f.sparsePenalty| == n && |f.sparsityTarget| == n && |f.sparsityTargetPenalty| == n
  }

  /** The argument has an acceptable form for `n` layers. */
  predicate Fits<T>(arg: PerLayer<T>, n: nat)
  {
    arg.Scalar? || |arg.values| == n
  }

  /** The broadcast loop over the ten per-layer names, in the source's order. */
  function BroadcastAll(args: StackArgs): (r: Result<Finals>)
    ensures var n := |args.nhids|;
      r.Success? <==>
        Fits(args.corruptor, n) && Fits(args.contracting, n) && Fits(args.actEnc, n) &&
        Fits(args.actDec, n) && Fits(args.tiedWeights, n) && Fits(args.irange, n) &&
        Fits(args.solution, n) && Fits(args.sparsePenalty, n) &&
        Fits(args.sparsityTarget, n) && Fits(args.sparsityTargetPenalty, n)
    ensures r.Failure? ==> r.error == AssertionError("")
    ensures r.Success? ==> FinalsSized(r.value, |args.nhids|)
  {
    var n := |args.nhids|;
    var corruptor :- Broadcast(args.corruptor, n);
    var contracting :- Broadcast(args.contracting, n);
    var actEnc :- Broadcast(args.actEnc, n);
    var actDec :- Broadcast(args.actDec, n);
    var tiedWeights :- Broadcast(args.tiedWeights, n);
    var irange :- Broadcast(args.irange, n);
    var solution :- Broadcast(args.solution, n);
    var sparsePenalty :- Broadcast(args.sparsePenalty, n);
    var sparsityTarget :- Broadcast(args.sparsityTarget, n);
    var sparsityTargetPenalty :- Broadcast(args.sparsityTargetPenalty, n);
    Success(Finals(corruptor, contracting, actEnc, actDec, tiedWeights, irange,
                   solution, sparsePenalty, sparsityTarget, sparsityTargetPenalty))
  }

  /** `[nvis] + nhids[:-1]`: the visible size of every layer. */
  function VisibleWidths(nvis: int, nhids: seq<int>): (r: seq<int>)
    ensures |nhids| > 0 ==> |r| == |nhids|
    ensures |r| > 0 && r[0] == nvis
    ensures forall i :: 0 < i < |nhids| ==> r[i] == nhids[i - 1]
  {
    [nvis] + (if |nhids| == 0 then [] else nhids[..|nhids| - 1])
  }

  /** What the loop hands to one layer: the constructor's arguments and the
      two arguments that choose its class. */
  datatype LayerArgs = LayerArgs(cfg: Config, contracting: bool, corruptor: Option<Corruptor>)

  /** The zipped per-layer arguments; every layer shares the generator `g`. */
  function ZipLayers(args: StackArgs, f: Finals, g: Generator): (r: seq<LayerArgs>)
    requires FinalsSized(f, |args.nhids|)
    ensures |r| == |args.nhids|
  {
    var nviss := VisibleWidths(args.nvis, args.nhids);
    seq(|args.nhids|, i requires 0 <= i < |args.nhids| =>
      LayerArgs(
        Config(nviss[i], args.nhids[i], f.actEnc[i], f.actDec[i], f.tiedWeights[i],
               SparsityConfig(f.solution[i], f.sparsePenalty[i], f.sparsityTarget[i], f.sparsityTargetPenalty[i]),
               f.irange[i], Some(Gen(g))),
        f.contracting[i], f.corruptor[i]))
  }

  /** Which class a layer is: both objectives at once are refused. */
  function SelectVariant(contracting: bool, corruptor: Option<Corruptor>): (r: Result<Variant>)
    ensures r.Failure? <==> contracting && corruptor.Some?
    ensures r.Failure? ==>
      r.error == ValueError("Can't specify denoising and contracting objectives simultaneously")
    ensures r.Success? && contracting ==> r.value.Contracting?
    ensures r.Success? && !contracting && corruptor.Some? ==> r.value == Denoising(corruptor.value)
    ensures r.Success? && !contracting && corruptor.None? ==> r.value.Plain?
  {
    if contracting && corruptor.Some? then
      Failure(ValueError("Can't specify denoising and contracting objectives simultaneously"))
    else if contracting then Success(Contracting)
    else if corruptor.Some? then Success(Denoising(corruptor.value))
    else Success(Plain)
  }

  /** One built layer: its constructor's arguments and its class. */
  datatype LayerSpec = LayerSpec(cfg: Config, variant: Variant)

  /** One step of the layer loop: choose the class, then run its constructor. */
  function LayerOutcome(a: LayerArgs, env: Env): (r: Result<LayerSpec>)
    ensures SelectVariant(a.contracting, a.corruptor).Failure? ==>
      r == Failure(SelectVariant(a.contracting, a.corruptor).error)
    ensures SelectVariant(a.contracting, a.corruptor).Success? ==>
      var v := SelectVariant(a.contracting, a.corruptor).value;
      (r.Success? <==> Validate(a.cfg, v, env).Success?) &&
      (r.Failure? ==> r.error == Validate(a.cfg, v, env).error) &&
      (r.Success? ==> r.value == LayerSpec(a.cfg, v))
  {
    var v :- SelectVariant(a.contracting, a.corruptor);
    var acts :- Validate(a.cfg, v, env);
    Success(LayerSpec(a.cfg, v))
  }

  /** The layer loop over `layers`, left to right: the first layer that fails
      decides the exception. */
  function PlanLayers(layers: seq<LayerArgs>, env: Env): (r: Result<seq<LayerSpec>>)
    ensures r.Success? ==> |r.value| == |layers|
  {
    if |layers| == 0 then Success([])
    else
      var init :- PlanLayers(layers[..|layers| - 1], env);
      var last :- LayerOutcome(layers[|layers| - 1], env);
      Success(init + [last])
  }

  /** The whole of `build_stacked_ae` on values: the layers it builds, or the
      exception it raises. */
  function Plan(args: StackArgs, env: Env): (r: Result<seq<LayerSpec>>)
    ensures BroadcastAll(args).Failure? ==> r == Failure(BroadcastAll(args).error)
    ensures r.Success? ==> |r.value| == |args.nhids|
  {
    var f :- BroadcastAll(args);
    PlanLayers(ZipLayers(args, f, ToGenerator(args.rng)), env)
  }

  /** A layer that is built keeps its arguments and has the class they choose. */
  lemma LayerOutcomeSucceeds(a: LayerArgs, env: Env)
    requires LayerOutcome(a, env).Success?
    ensures LayerOutcome(a, env).value.cfg == a.cfg
    ensures SelectVariant(a.contracting, a.corruptor) == Success(LayerOutcome(a, env).value.variant)
    ensures Validate(a.cfg, LayerOutcome(a, env).value.variant, env).Success?
  {
  }

  /** A successful loop builds one layer per argument, each around exactly
      its constructor arguments, of the class its two objective arguments
      choose, and accepted by that class's constructor. */
  lemma {:induction false} PlanLayersSucceeds(layers: seq<LayerArgs>, env: Env)
    requires PlanLayers(layers, env).Success?
    ensures |PlanLayers(layers, env).value| == |layers|
    ensures forall i :: 0 <= i < |layers| ==>
      var spec := PlanLayers(layers, env).value[i];
      spec.cfg == layers[i].cfg &&
      SelectVariant(layers[i].contracting, layers[i].corruptor) == Success(spec.variant) &&
      Validate(spec.cfg, spec.variant, env).Success?
  {
    if |layers| > 0 {
      var init := layers[..|layers| - 1];
      PlanLayersSucceeds(init, env);
      LayerOutcomeSucceeds(layers[|layers| - 1], env);
      forall i | 0 <= i < |layers| - 1 ensures layers[i] == init[i] {
      }
    }
  }

  /** One more step of the loop: the layer after a successful prefix either
      fails, and so does the longer prefix, or is appended. */
  lemma PlanLayersStep(layers: seq<LayerArgs>, k: nat, env: Env)
    requires k < |layers| && PlanLayers(layers[..k], env).Success?
    ensures LayerOutcome(layers[k], env).Failure? ==>
      PlanLayers(layers[..k + 1], env) == Failure(LayerOutcome(layers[k], env).error)
    ensures LayerOutcome(layers[k], env).Success? ==>
      PlanLayers(layers[..k + 1], env)
        == Success(PlanLayers(layers[..k], env).value + [LayerOutcome(layers[k], env).value])
  {
    assert layers[..k + 1][..k] == layers[..k];
  }

  /** Once a prefix of the layers fails, the whole loop fails with the same
      exception: the loop stops at the first failing layer. */
  lemma {:induction false} PlanLayersPrefixFailure(layers: seq<LayerArgs>, k: nat, env: Env)
    requires k <= |layers|
    requires PlanLayers(layers[..k], env).Failure?
    ensures PlanLayers(layers, env) == Failure(PlanLayers(layers[..k], env).error)
    decreases |layers| - k
  {
    if k < |layers| {
      var next := layers[..k + 1];
      assert next[..k] == layers[..k];
      assert PlanLayers(next, env).Failure?;
      PlanLayersPrefixFailure(layers, k + 1, env);
    } else {
      assert layers[..k] == layers;
    }
  }

  /** The constructor arguments of layer i, as the loop zips them. */
  lemma ZipLayersAt(args: StackArgs, f: Finals, g: Generator, i: nat)
    requires FinalsSized(f, |args.nhids|) && i < |args.nhids|
    ensures var a := ZipLayers(args, f, g)[i];
      a.cfg.nhid == args.nhids[i] &&
      a.cfg.nvis == (if i == 0 then args.nvis else args.nhids[i - 1]) &&
      a.cfg.rng == Some(Gen(g)) &&
      a.cfg.actEnc == f.actEnc[i] && a.cfg.actDec == f.actDec[i] &&
      a.cfg.tiedWeights == f.tiedWeights[i] && a.cfg.irange == f.irange[i] &&
      a.cfg.sparsity == SparsityConfig(f.solution[i], f.sparsePenalty[i], f.sparsityTarget[i], f.sparsityTargetPenalty[i]) &&
      a.contracting == f.contracting[i] && a.corruptor == f.corruptor[i]
  {
  }

  /** The layers of a successful stack: `len(nhids)` of them; layer i has
      `nhids[i]` hidden units, `nvis` visible units for the first and
      `nhids[i - 1]` for the others, and the shared generator. */
  lemma PlanWidths(args: StackArgs, env: Env)
    requires Plan(args, env).Success?
    ensures var specs := Plan(args, env).value;
      |specs| == |args.nhids| &&
      forall i :: 0 <= i < |specs| ==>
        specs[i].cfg.nhid == args.nhids[i] &&
        specs[i].cfg.nvis == (if i == 0 then args.nvis else args.nhids[i - 1]) &&
        specs[i].cfg.rng == Some(Gen(ToGenerator(args.rng)))
  {
    var f := BroadcastAll(args).value;
    var g := ToGenerator(args.rng);
    var layers := ZipLayers(args, f, g);
    assert Plan(args, env) == PlanLayers(layers, env);
    PlanLayersSucceeds(layers, env);
    forall i | 0 <= i < |layers| ensures layers[i].cfg.nhid == args.nhids[i] &&
        layers[i].cfg.nvis == (if i == 0 then args.nvis else args.nhids[i - 1]) &&
        layers[i].cfg.rng == Some(Gen(g)) {
      ZipLayersAt(args, f, g, i);
    }
  }

  /** Layer i of a successful stack gets the i-th value of every per-layer
      argument, and its class is the one its two objective arguments choose. */
  lemma PlanSettings(args: StackArgs, env: Env)
    requires Plan(args, env).Success?
    ensures BroadcastAll(args).Success?
    ensures var specs := Plan(args, env).value;
      var f := BroadcastAll(args).value;
      |specs| == |args.nhids| &&
      forall i :: 0 <= i < |specs| ==>
        specs[i].cfg.actEnc == f.actEnc[i] && specs[i].cfg.actDec == f.actDec[i] &&
        specs[i].cfg.tiedWeights == f.tiedWeights[i] && specs[i].cfg.irange == f.irange[i] &&
        specs[i].cfg.sparsity ==
          SparsityConfig(f.solution[i], f.sparsePenalty[i], f.sparsityTarget[i], f.sparsityTargetPenalty[i]) &&
        SelectVariant(f.contracting[i], f.corruptor[i]) == Success(specs[i].variant)
  {
    var f := BroadcastAll(args).value;
    var g := ToGenerator(args.rng);
    var layers := ZipLayers(args, f, g);
    PlanLayersSucceeds(layers, env);
    forall i | 0 <= i < |layers| ensures
        layers[i].cfg.actEnc == f.actEnc[i] && layers[i].cfg.actDec == f.actDec[i] &&
        layers[i].cfg.tiedWeights == f.tiedWeights[i] && layers[i].cfg.irange == f.irange[i] &&
        layers[i].cfg.sparsity ==
          SparsityConfig(f.solution[i], f.sparsePenalty[i], f.sparsityTarget[i], f.sparsityTargetPenalty[i]) &&
        layers[i].contracting == f.contracting[i] && layers[i].corruptor == f.corruptor[i] {
      ZipLayersAt(args, f, g, i);
    }
  }

  /** The widths chain: every layer above the first has as many visible units
      as the layer below has hidden units. */
  lemma PlanChains(args: StackArgs, env: Env)
    requires Plan(args, env).Success?
    ensures var specs := Plan(args, env).value;
      forall i :: 0 < i < |specs| ==> specs[i].cfg.nvis == specs[i - 1].cfg.nhid
  {
    PlanWidths(args, env);
  }

  /** A stack in which some layer asks for a corruptor and for the
      contracting objective is never built. */
  lemma ConflictingLayerRejected(args: StackArgs, env: Env, i: nat)
    requires BroadcastAll(args).Success?
    requires i < |args.nhids|
    requires BroadcastAll(args).value.contracting[i] && BroadcastAll(args).value.corruptor[i].Some?
    ensures Plan(args, env).Failure?
  {
    if Plan(args, env).Success? {
      PlanSettings(args, env);
    }
  }

  /** The layer loop of `build_stacked_ae`: builds the layers bottom-up,
      stopping at the first exception. */
  method BuildLayers(todo: seq<LayerArgs>, env: Env) returns (r: Result<seq<Autoencoder>>)
    ensures r.Failure? <==> PlanLayers(todo, env).Failure?
    ensures r.Failure? ==> r.error == PlanLayers(todo, env).error
    ensures r.Success? ==>
      var specs := PlanLayers(todo, env).value;
      |r.value| == |specs| &&
      forall i :: 0 <= i < |specs| ==>
        fresh(r.value[i]) && r.value[i].Valid() &&
        Validate(specs[i].cfg, specs[i].variant, env).Success? &&
        r.value[i].Initialised(specs[i].cfg, specs[i].variant, env)
  {
    var layers: seq<Autoencoder> := [];
    ghost var specs: seq<LayerSpec> := [];
    var k := 0;
    while k < |todo|
      invariant 0 <= k <= |todo|
      invariant PlanLayers(todo[..k], env) == Success(specs)
      invariant |layers| == |specs| == k
      invariant forall i :: 0 <= i < k ==>
        fresh(layers[i]) && layers[i].Valid() &&
        Validate(specs[i].cfg, specs[i].variant, env).Success? &&
        layers[i].Initialised(specs[i].cfg, specs[i].variant, env)
    {
      var v := SelectVariant(todo[k].contracting, todo[k].corruptor);
      if v.Failure? {
        PlanLayersStep(todo, k, env);
        PlanLayersPrefixFailure(todo, k + 1, env);
        return Failure(v.error);
      }
      var ae := Autoencoder.Create(todo[k].cfg, v.value, env);
      if ae.Failure? {
        PlanLayersStep(todo, k, env);
        PlanLayersPrefixFailure(todo, k + 1, env);
        return Failure(ae.error);
      }
      PlanLayersStep(todo, k, env);
      layers := layers + [ae.value];
      specs := specs + [LayerSpec(todo[k].cfg, v.value)];
      k := k + 1;
    }
    assert todo[..k] == todo;
    return Success(layers);
  }

  /** `build_stacked_ae`: converts `rng` to a generator once, broadcasts the
      per-layer arguments, zips them with the chained widths, and runs the
      layer loop. The `StackedBlocks` wrapper is the sequence of layers. */
  method BuildStackedAE(args: StackArgs, env: Env) returns (r: Result<seq<Autoencoder>>)
    ensures r.Failure? <==> Plan(args, env).Failure?
    ensures r.Failure? ==> r.error == Plan(args, env).error
    ensures r.Success? ==>
      var specs := Plan(args, env).value;
      |r.value| == |specs| == |args.nhids| &&
      forall i :: 0 <= i < |specs| ==>
        fresh(r.value[i]) && r.value[i].Valid() &&
        Validate(specs[i].cfg, specs[i].variant, env).Success? &&
        r.value[i].Initialised(specs[i].cfg, specs[i].variant, env)
    ensures r.Success? ==>
      forall i :: 0 <= i < |r.value| ==> r.value[i].nhid == args.nhids[i]
    ensures r.Success? ==>
      forall i :: 0 < i < |r.value| ==> r.value[i].VisibleSize() == r.value[i - 1].nhid
  {
    var g := ToGenerator(args.rng);
    var finals := BroadcastAll(args);
    if finals.Failure? {
      return Failure(finals.error);
    }
    var todo := ZipLayers(args, finals.value, g);
    r := BuildLayers(todo, env);
    if r.Success? {
      PlanWidths(args, env);
      PlanChains(args, env);
      LayersChain(r.value, Plan(args, env).value, env);
    }
  }

  /** Layers built from a chained plan are chained: each layer above the first
      has as many visible units as the layer below has hidden units. */
  lemma LayersChain(layers: seq<Autoencoder>, specs: seq<LayerSpec>, env: Env)
    requires |layers| == |specs|
    requires forall i :: 0 <= i < |specs| ==>
      Validate(specs[i].cfg, specs[i].variant, env).Success? &&
      layers[i].Initialised(specs[i].cfg, specs[i].variant, env)
    requires forall i :: 0 < i < |specs| ==> specs[i].cfg.nvis == specs[i - 1].cfg.nhid
    ensures forall i :: 0 <= i < |layers| ==> layers[i].nhid == specs[i].cfg.nhid
    ensures forall i :: 0 < i < |layers| ==> layers[i].VisibleSize() == layers[i - 1].nhid
  {
    forall i | 0 < i < |layers|
      ensures layers[i].VisibleSize() == layers[i - 1].nhid
    {
      ConstructionSizes(specs[i - 1].cfg, specs[i - 1].variant, env);
    }
  }
}
