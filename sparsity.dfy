/** The sparsity regularisation term of an autoencoder, as the symbolic value
    `compute_regularization` builds, and its meaning over the reals once the
    hidden activations have been given numeric values. */
module Sparsity {
  import opened Python
  import opened Graph

  /** A minibatch of numbers: a list of rows. */
  type Matrix = seq<seq<real>>

  /** A valuation of the graph: the numeric value each node evaluates to. */
  type Valuation = Node -> Matrix

  /** The term `compute_regularization` returns.
      - `NoPenalty`: the Python integer 0;
      - `L1Penalty(c, h)`: `c * tensor.sum(h)`, where `h` may be a list of
        minibatches (summed over all of them);
      - `SqrPenalty(c, t, h)`: `c * tensor.sum(tensor.sqr(h - t))` for one
        minibatch `h`. */
  datatype Penalty =
    | NoPenalty
    | L1Penalty(coef: real, hiddens: Nested<Node>)
    | SqrPenalty(coef: real, target: real, of: Node)

  function SumReals(s: seq<real>): real
  {
    if |s| == 0 then 0.0 else s[0] + SumReals(s[1..])
  }

  /** The sum of every entry of a matrix. */
  function SumAll(m: Matrix): real
  {
    if |m| == 0 then 0.0 else SumReals(m[0]) + SumAll(m[1..])
  }

  function SqDiffRow(row: seq<real>, t: real): real
  {
    if |row| == 0 then 0.0 else Square(row[0] - t) + SqDiffRow(row[1..], t)
  }

  /** The sum over every entry x of a matrix of (x - t)^2. */
  function SumSqDiff(m: Matrix, t: real): real
  {
    if |m| == 0 then 0.0 else SqDiffRow(m[0], t) + SumSqDiff(m[1..], t)
  }

  /** The sum of every entry of every minibatch in `ls`. */
  function SumLeaves(ls: seq<Node>, eval: Valuation): real
  {
    if |ls| == 0 then 0.0 else SumAll(eval(ls[0])) + SumLeaves(ls[1..], eval)
  }

  /** The numeric value of a regularisation term. */
  function PenaltyValue(p: Penalty, eval: Valuation): real
  {
    match p
    case NoPenalty => 0.0
    case L1Penalty(c, h) => c * SumLeaves(Leaves(h), eval)
    case SqrPenalty(c, t, h) => c * SumSqDiff(eval(h), t)
  }

  /** Every entry of `m` equals `t`. */
  predicate AllEqual(m: Matrix, t: real)
  {
    forall i, j :: 0 <= i < |m| && 0 <= j < |m[i]| ==> m[i][j] == t
  }

  /** Every entry of `row` equals `t`. */
  predicate AllAt(row: seq<real>, t: real)
  {
    forall j :: 0 <= j < |row| ==> row[j] == t
  }

  /** x * y, kept as a term of its own so that facts about a product of two
      values are stated about the product itself. */
  function Product(x: real, y: real): real { x * y }

  function Square(x: real): real { Product(x, x) }

  /** Two non-zero values of the same sign have a positive product. */
  lemma ProductPositive(x: real, y: real)
    requires (x > 0.0 && y > 0.0) || (x < 0.0 && y < 0.0)
    ensures Product(x, y) > 0.0
  {
  }

  /** A square is never negative, and it is zero only at zero. */
  lemma SquareSign(x: real)
    ensures Square(x) >= 0.0
    ensures Square(x) == 0.0 <==> x == 0.0
  {
    if x != 0.0 {
      ProductPositive(x, x);
    }
  }

  lemma {:induction false} SqDiffRowZeroIff(row: seq<real>, t: real)
    ensures SqDiffRow(row, t) >= 0.0
    ensures SqDiffRow(row, t) == 0.0 <==> AllAt(row, t)
  {
    if |row| > 0 {
      var rest := row[1..];
      SqDiffRowZeroIff(rest, t);
      SquareSign(row[0] - t);
      assert AllAt(row, t) <==> row[0] == t && AllAt(rest, t) by {
        assert forall j :: 1 <= j < |row| ==> row[j] == rest[j - 1];
        assert forall j :: 0 <= j < |rest| ==> rest[j] == row[j + 1];
      }
    }
  }

  lemma {:induction false} SumSqDiffZeroIff(m: Matrix, t: real)
    ensures SumSqDiff(m, t) >= 0.0
    ensures SumSqDiff(m, t) == 0.0 <==> AllEqual(m, t)
  {
    if |m| > 0 {
      SqDiffRowZeroIff(m[0], t);
      SumSqDiffZeroIff(m[1..], t);
      assert forall i :: 1 <= i < |m| ==> m[i] == m[1..][i - 1];
    }
  }

  /** With a non-negative coefficient the quadratic penalty is never negative. */
  lemma SqrPenaltyNonNegative(c: real, t: real, h: Node, eval: Valuation)
    requires c >= 0.0
    ensures PenaltyValue(SqrPenalty(c, t, h), eval) >= 0.0
  {
    SumSqDiffZeroIff(eval(h), t);
  }

  /** With a positive coefficient the quadratic penalty vanishes exactly when
      every hidden activation sits at the sparsity target. */
  lemma SqrPenaltyZeroIff(c: real, t: real, h: Node, eval: Valuation)
    requires c > 0.0
    ensures PenaltyValue(SqrPenalty(c, t, h), eval) == 0.0 <==> AllEqual(eval(h), t)
  {
    SumSqDiffZeroIff(eval(h), t);
    var s := SumSqDiff(eval(h), t);
    assert c * s == 0.0 ==> s == 0.0;
  }

  lemma {:induction false} SumLeavesAppend(a: seq<Node>, b: seq<Node>, eval: Valuation)
    ensures SumLeaves(a + b, eval) == SumLeaves(a, eval) + SumLeaves(b, eval)
  {
    if |a| == 0 {
      assert a + b == b;
    } else {
      assert (a + b)[1..] == a[1..] + b;
      SumLeavesAppend(a[1..], b, eval);
    }
  }

  lemma {:induction false} SumLeavesConcat(ss: seq<seq<Node>>, eval: Valuation)
    ensures SumLeaves(Concat(ss), eval)
         == SumReals(seq(|ss|, j requires 0 <= j < |ss| => SumLeaves(ss[j], eval)))
  {
    if |ss| > 0 {
      SumLeavesAppend(ss[0], Concat(ss[1..]), eval);
      SumLeavesConcat(ss[1..], eval);
      var whole := seq(|ss|, j requires 0 <= j < |ss| => SumLeaves(ss[j], eval));
      var tail := seq(|ss| - 1, j requires 0 <= j < |ss| - 1 => SumLeaves(ss[1..][j], eval));
      assert whole[1..] == tail;
    }
  }

  /** The L1 penalty of a list of minibatches is the sum of the L1 penalties of
      its elements: `tensor.sum` over the list adds up every batch. */
  lemma L1PenaltyOfList(c: real, items: seq<Nested<Node>>, eval: Valuation)
    ensures PenaltyValue(L1Penalty(c, Batches(items)), eval)
         == c * SumReals(seq(|items|, i requires 0 <= i < |items| => SumLeaves(Leaves(items[i]), eval)))
  {
    var ss := seq(|items|, i requires 0 <= i < |items| => Leaves(items[i]));
    SumLeavesConcat(ss, eval);
    assert seq(|ss|, j requires 0 <= j < |ss| => SumLeaves(ss[j], eval))
        == seq(|items|, i requires 0 <= i < |items| => SumLeaves(Leaves(items[i]), eval));
  }

  /** The L1 penalty of a single minibatch is the coefficient times the sum of
      its hidden activations. */
  lemma L1PenaltyOfBatch(c: real, h: Node, eval: Valuation)
    ensures PenaltyValue(L1Penalty(c, Batch(h)), eval) == c * SumAll(eval(h))
  {
    assert Leaves(Batch(h)) == [h];
    assert [h][1..] == [];
    assert SumLeaves([h], eval) == SumAll(eval(h)) + SumLeaves([], eval);
  }

  /** The four constructor arguments that choose the regularisation term. The
      stack builder passes `None` for the ones it is not given, so every one of
      them is optional here. */
  datatype SparsityConfig = SparsityConfig(
    solution: Option<string>,
    sparsePenalty: Option<real>,
    sparsityTarget: Option<real>,
    sparsityTargetPenalty: Option<real>)

  /** `compute_regularization(hiddens)`: `'l1_penalty'` multiplies the sum of the
      hidden activations by `sparse_penalty`; `'sqr_penalty'` multiplies the sum
      of their squared distances to `sparsity_target` by
      `sparsity_target_penalty`; anything else gives 0. A missing coefficient
      makes the arithmetic raise, and so does subtracting the target from a
      Python list of minibatches. */
  function Regularization(s: SparsityConfig, hiddens: Nested<Node>): (r: Result<Penalty>)
    ensures r.Failure? ==> r.error.TypeError?
    ensures r.Success? && r.value.L1Penalty? ==>
      s.solution == Some("l1_penalty") && s.sparsePenalty == Some(r.value.coef) && r.value.hiddens == hiddens
    ensures r.Success? && r.value.SqrPenalty? ==>
      s.solution == Some("sqr_penalty") && hiddens == Batch(r.value.of) &&
      s.sparsityTargetPenalty == Some(r.value.coef) && s.sparsityTarget == Some(r.value.target)
  {
    if s.solution == Some("l1_penalty") then
      if s.sparsePenalty.None? then Failure(TypeError("unsupported operand type(s) for *: 'NoneType'"))
      else Success(L1Penalty(s.sparsePenalty.value, hiddens))
    else if s.solution == Some("sqr_penalty") then
      if hiddens.Batches? then Failure(TypeError("unsupported operand type(s) for -: 'list'"))
      else if s.sparsityTarget.None? then Failure(TypeError("unsupported operand type(s) for -: 'NoneType'"))
      else if s.sparsityTargetPenalty.None? then Failure(TypeError("unsupported operand type(s) for *: 'NoneType'"))
      else Success(SqrPenalty(s.sparsityTargetPenalty.value, s.sparsityTarget.value, hiddens.x))
    else
      Success(NoPenalty)
  }

  /** The term is 0 unless `solution` is exactly one of the two names. */
  lemma RegularizationZeroUnlessNamed(s: SparsityConfig, hiddens: Nested<Node>, eval: Valuation)
    ensures s.solution != Some("l1_penalty") && s.solution != Some("sqr_penalty")
            <==> Regularization(s, hiddens) == Success(NoPenalty)
    ensures s.solution != Some("l1_penalty") && s.solution != Some("sqr_penalty")
            ==> PenaltyValue(Regularization(s, hiddens).value, eval) == 0.0
  {
  }

  /** With `'l1_penalty'` and a coefficient c, the term is c times the sum of every
      hidden activation, over every minibatch of a list. */
  lemma RegularizationL1(s: SparsityConfig, hiddens: Nested<Node>, eval: Valuation)
    requires s.solution == Some("l1_penalty") && s.sparsePenalty.Some?
    ensures Regularization(s, hiddens).Success?
    ensures PenaltyValue(Regularization(s, hiddens).value, eval)
         == s.sparsePenalty.value * SumLeaves(Leaves(hiddens), eval)
  {
  }

  /** With `'sqr_penalty'` on one minibatch h, the term is
      sparsity_target_penalty times the sum of (x - sparsity_target)^2 over the
      entries x of h; with a positive coefficient it is never negative and is 0
      exactly when every activation equals the target. */
  lemma RegularizationSqr(s: SparsityConfig, h: Node, eval: Valuation)
    requires s.solution == Some("sqr_penalty")
    requires s.sparsityTarget.Some? && s.sparsityTargetPenalty.Some?
    requires s.sparsityTargetPenalty.value > 0.0
    ensures Regularization(s, Batch(h)).Success?
    ensures PenaltyValue(Regularization(s, Batch(h)).value, eval) >= 0.0
    ensures PenaltyValue(Regularization(s, Batch(h)).value, eval) == 0.0
            <==> AllEqual(eval(h), s.sparsityTarget.value)
  {
    SqrPenaltyNonNegative(s.sparsityTargetPenalty.value, s.sparsityTarget.value, h, eval);
    SqrPenaltyZeroIff(s.sparsityTargetPenalty.value, s.sparsityTarget.value, h, eval);
  }

  /** The cases in which the term cannot be built: a missing coefficient for the
      chosen solution, or the quadratic penalty asked of a list. */
  lemma RegularizationFails(s: SparsityConfig, hiddens: Nested<Node>)
    ensures Regularization(s, hiddens).Failure? <==>
      (s.solution == Some("l1_penalty") && s.sparsePenalty.None?) ||
      (s.solution == Some("sqr_penalty") &&
       (hiddens.Batches? || s.sparsityTarget.None? || s.sparsityTargetPenalty.None?))
    ensures Regularization(s, hiddens).Failure? ==> Regularization(s, hiddens).error.TypeError?
  {
  }

  /** When the term can be built for a list of minibatches, it can be built for
      anything else too: success depends on the list only through the
      quadratic penalty, which refuses every list. */
  lemma RegularizationOfListSucceeds(s: SparsityConfig, hiddens: Nested<Node>, other: Nested<Node>)
    requires hiddens.Batches? && Regularization(s, hiddens).Success?
    ensures Regularization(s, other).Success?
  {
  }
}
