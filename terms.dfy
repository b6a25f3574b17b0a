/**
 * The expression-graph collaborator as the exponential-cone constraints see it:
 * an operand is a term with a shape and an affinity verdict, and a dual value is a
 * flat row-major array together with the shape it is viewed at.
 */
module Terms {

  import opened Results

  /** A numpy-style shape tuple; `[]` is the shape of a scalar. */
  type Shape = seq<nat>

  /** The number of scalar entries of an array of shape `s` (the product of its dimensions). */
  function NumElements(s: Shape): (n: nat)
    ensures n == 0 <==> 0 in s
    ensures s == [] ==> n == 1
  {
    if s == [] then 1 else s[0] * NumElements(s[1..])
  }

  /** Prepending one axis multiplies the element count by that axis' length. */
  lemma NumElementsOfStacked(d: nat, s: Shape)
    ensures NumElements([d] + s) == d * NumElements(s)
  {
  }

  /**
   * An operand after casting. Its shape and its affinity are decided by the expression
   * graph, which is not part of this model: a leaf carries both as given data, one
   * affinity verdict for the ordinary analysis and one for the parametrized (DPP) analysis.
   * `Neg` is the negation the approximation converter applies to an operand.
   */
  datatype Expr =
    | Leaf(name: string, shape: Shape, affine: bool, dppAffine: bool)
    | Neg(arg: Expr)

  /** The shape of an operand; negation is elementwise and keeps it. */
  function ShapeOf(e: Expr): Shape {
    match e
    case Leaf(_, s, _, _) => s
    case Neg(a) => ShapeOf(a)
  }

  /** The affinity oracle, under the ordinary (`dpp == false`) or the parametrized analysis. */
  predicate IsAffine(e: Expr, dpp: bool) {
    match e
    case Leaf(_, _, a, da) => if dpp then da else a
    case Neg(a) => IsAffine(a, dpp)
  }

  /** An array value: `data` holds the entries in row-major (C) order. */
  datatype Tensor = Tensor(shape: Shape, data: seq<real>)

  /** What a failed reshape was asked to produce. */
  datatype ReshapeTarget =
    | Triples          // the `(-1, 3)` view of a flat vector
    | Dims(shape: Shape)

  /** The errors raised by the constraints. */
  datatype Error =
    | ShapeMismatch(xs: Shape, ys: Shape, zs: Shape)
    | ReshapeError(count: nat, target: ReshapeTarget)

  /**
   * Views a flat row-major vector at the given shape, as numpy's reshape does:
   * it succeeds exactly when the element counts agree, and keeps the entries in order.
   */
  function Reshape(data: seq<real>, shape: Shape): (r: Result<Tensor, Error>)
    ensures r.Ok? <==> |data| == NumElements(shape)
    ensures r.Ok? ==> r.value.shape == shape && r.value.data == data
    ensures r.Err? ==> r.error == ReshapeError(|data|, Dims(shape))
  {
    if |data| == NumElements(shape) then Ok(Tensor(shape, data))
    else Err(ReshapeError(|data|, Dims(shape)))
  }
}
