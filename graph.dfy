/** The symbolic side of the model: random generators, the shared parameters an
    autoencoder allocates (by name and shape; their random values are not
    modelled), and the graph terms that `encode` and `reconstruct` build. */
module Graph {
  import opened Python

  /** A NumPy `RandomState`: one this module creates from a seed (`None`: seeded
      by NumPy from the operating system), or an object the caller supplied. */
  datatype Generator = RandomState(seed: Option<int>) | Supplied(id: string)

  /** What an `rng` argument can be: a plain seed, or an object that has a
      `randn` method. */
  datatype RngArg = Seed(seed: int) | Gen(gen: Generator)

  /** How the constructor turns its `rng` argument into a generator: anything
      without a `randn` method (a seed or `None`) seeds a fresh `RandomState`;
      a generator is kept as it is. */
  function ToGenerator(rng: Option<RngArg>): (g: Generator)
    ensures rng.None? ==> g == RandomState(None)
    ensures rng.Some? && rng.value.Seed? ==> g == RandomState(Some(rng.value.seed))
    ensures rng.Some? && rng.value.Gen? ==> g == rng.value.gen
  {
    match rng
    case None => RandomState(None)
    case Some(Seed(s)) => RandomState(Some(s))
    case Some(Gen(g)) => g
  }

  /** The reverse of a sequence: numpy's `.T` reverses the order of the axes. */
  function Reverse<T>(s: seq<T>): (r: seq<T>)
    ensures |r| == |s| && forall i :: 0 <= i < |s| ==> r[i] == s[|s| - 1 - i]
  {
    seq(|s|, i requires 0 <= i < |s| => s[|s| - 1 - i])
  }

  /** A shared variable the autoencoder allocates.
      - `Zeros(name, size)`: `sharedX(numpy.zeros(size), name=name)`, a bias vector
        of zeros.
      - `Uniform(name, rows, cols, scale, source)`:
        `sharedX(.5 - source.rand(rows, cols) * scale, name=name)`, a weight matrix
        whose entries are 0.5 - u * scale for u drawn uniformly from [0, 1) by
        `source` (so they lie in (0.5 - scale, 0.5], not around 0).
      - `Transposed(p)`: the symbolic view `p.T`, which follows `p` and is not a
        parameter of its own. */
  datatype Param =
    | Zeros(name: string, size: nat)
    | Uniform(name: string, rows: nat, cols: nat, scale: real, source: Generator)
    | Transposed(of: Param)

  /** The shape of a parameter, as numpy reports it. */
  function Shape(p: Param): seq<nat>
  {
    match p
    case Zeros(_, n) => [n]
    case Uniform(_, r, c, _, _) => [r, c]
    case Transposed(q) => Reverse(Shape(q))
  }

  /** A transposed matrix has its two dimensions swapped. */
  lemma TransposedShape(p: Param)
    requires p.Uniform?
    ensures Shape(Transposed(p)) == [p.cols, p.rows]
  {
  }

  /** A node of the symbolic graph built by the autoencoder.
      - `Input(name)`: a symbolic minibatch (a `tensor.Variable`);
      - `Shared(p)`: a model attribute used in the graph; `None` stands for an
        attribute that holds `None` (the visible side of a model whose visible
        size is not set yet);
      - `Dot(a, b)`: `tensor.dot(a, b)`;
      - `Plus(a, b)`: `a + b`, a bias vector broadcast over the rows of a matrix;
      - `Apply(f, a)`: the activation object `f` called on `a`. */
  datatype Node =
    | Input(name: string)
    | Shared(p: Option<Param>)
    | Dot(left: Node, right: Node)
    | Plus(left: Node, right: Node)
    | Apply(f: PyObj, arg: Node)
}
