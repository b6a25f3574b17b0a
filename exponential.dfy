/**
 * The exponential-cone constraint and its quadrature-based relative-entropy surrogate.
 * Both are elementwise: operands `x`, `y`, `z` of one common shape `S` stand for one
 * three-entry cone per scalar entry of `S`. The operands are fixed at construction;
 * the only state that changes afterwards is the three dual-value slots, one per operand,
 * which start empty.
 */
module Exponential {

  import opened Results
  import opened Terms
  import opened DualRecovery

  /** The three operands agree on their shape. */
  predicate SameShape(x: Expr, y: Expr, z: Expr) {
    ShapeOf(x) == ShapeOf(y) && ShapeOf(x) == ShapeOf(z)
  }

  /** The constructors' shape validation: any disagreement raises, reporting all three shapes. */
  function CheckShapes(x: Expr, y: Expr, z: Expr): (r: Outcome<Error>)
    ensures r.Pass? <==> SameShape(x, y, z)
    ensures r.Fail? ==> r.error == ShapeMismatch(ShapeOf(x), ShapeOf(y), ShapeOf(z))
  {
    var (xs, ys, zs) := (ShapeOf(x), ShapeOf(y), ShapeOf(z));
    if xs != ys || xs != zs then Fail(ShapeMismatch(xs, ys, zs)) else Pass
  }

  /** The total of a list of cone sizes. */
  function Sum(s: seq<nat>): nat {
    if s == [] then 0 else s[0] + Sum(s[1..])
  }

  /** `n` cones of three entries each hold `3 * n` entries in all. */
  lemma {:induction false} SumOfTriples(n: nat)
    ensures Sum(seq(n, _ => 3)) == 3 * n
  {
    if n > 0 {
      assert seq(n, _ => 3)[1..] == seq(n - 1, _ => 3);
      SumOfTriples(n - 1);
    }
  }

  /** The cone-count bookkeeping of a stacked `(3,) + S` constraint is self-consistent. */
  lemma StackedLayout(s: Shape)
    ensures NumElements([3] + s) == 3 * NumElements(s)
    ensures Sum(seq(NumElements(s), _ => 3)) == 3 * NumElements(s)
  {
    NumElementsOfStacked(3, s);
    SumOfTriples(NumElements(s));
  }

  /** The reformulated exponential cone, applied elementwise to `x`, `y`, `z`. */
  class ExpCone {
    const x: Expr
    const y: Expr
    const z: Expr
    /** The dual values of `x`, `y` and `z`, in that order. */
    var duals: seq<Option<Tensor>>

    ghost predicate Valid()
      reads this
    {
      SameShape(x, y, z) && |duals| == 3
    }

    /** Builds an instance whose operands are already known to agree; `Make` is the checked entry. */
    constructor (x: Expr, y: Expr, z: Expr)
      requires SameShape(x, y, z)
      ensures Valid()
      ensures this.x == x && this.y == y && this.z == z
      ensures duals == [None, None, None]
    {
      this.x := x;
      this.y := y;
      this.z := z;
      duals := [None, None, None];
    }

    /** Construction: succeeds exactly when the three shapes agree, and otherwise raises. */
    static method Make(x: Expr, y: Expr, z: Expr) returns (r: Result<ExpCone, Error>)
      ensures r.Ok? <==> SameShape(x, y, z)
      ensures r.Ok? ==> fresh(r.value) && r.value.Valid()
      ensures r.Ok? ==> r.value.x == x && r.value.y == y && r.value.z == z
      ensures r.Ok? ==> r.value.duals == [None, None, None]
      ensures r.Err? ==> r.error == ShapeMismatch(ShapeOf(x), ShapeOf(y), ShapeOf(z))
    {
      match CheckShapes(x, y, z)
      case Fail(e) =>
        r := Err(e);
      case Pass =>
        var c := new ExpCone(x, y, z);
        r := Ok(c);
    }

    /** One elementwise cone per scalar entry of `x`, and so of each operand once shapes agree. */
    function NumCones(): (n: nat)
      ensures SameShape(x, y, z) ==> n == NumElements(ShapeOf(y)) && n == NumElements(ShapeOf(z))
    {
      NumElements(ShapeOf(x))
    }

    /** The number of entries of all the cones together. */
    function Size(): (r: nat)
      ensures r == 3 * NumCones()
      ensures r == Sum(ConeSizes())
      ensures r == NumElements(Shape())
    {
      StackedLayout(ShapeOf(x));
      3 * NumCones()
    }

    /** The size of each elementwise cone. */
    function ConeSizes(): (r: seq<nat>)
      ensures |r| == NumCones()
      ensures forall i | 0 <= i < |r| :: r[i] == 3
    {
      seq(NumCones(), _ => 3)
    }

    /** A leading axis of length three enumerates the triple `(x_i, y_i, z_i)`. */
    function Shape(): (r: Shape)
      ensures |r| == |ShapeOf(x)| + 1 && r[0] == 3 && r[1..] == ShapeOf(x)
    {
      [3] + ShapeOf(x)
    }

    /** DCP exactly when every argument is affine, under the chosen analysis. */
    function IsDcp(dpp: bool): (r: bool)
      ensures r <==> IsAffine(x, dpp) && IsAffine(y, dpp) && IsAffine(z, dpp)
    {
      forall a | a in [x, y, z] :: IsAffine(a, dpp)
    }

    /** The cone has no geometric-programming reading. */
    function IsDgp(dpp: bool): (r: bool)
      ensures !r
    {
      false
    }

    /** DQCP agrees with DCP under the ordinary analysis. */
    function IsDqcp(): (r: bool)
      ensures r <==> IsAffine(x, false) && IsAffine(y, false) && IsAffine(z, false)
      ensures r == IsDcp(false)
    {
      IsDcp(false)
    }

    /**
     * Stores the solver's flat dual vector: entry `3*i + j` goes to entry `i` of slot `j`.
     * It raises, and stores nothing, unless the vector has exactly `Size()` entries.
     */
    method SaveDualValue(value: seq<real>) returns (r: Outcome<Error>)
      requires Valid()
      modifies this
      ensures Valid()
      ensures r.Pass? <==> |value| == Size()
      ensures r.Fail? ==> r.error.ReshapeError? && duals == old(duals)
      ensures r.Pass? ==> duals == [
        Some(Tensor(ShapeOf(x), Column(value, 0))),
        Some(Tensor(ShapeOf(y), Column(value, 1))),
        Some(Tensor(ShapeOf(z), Column(value, 2)))]
      ensures r.Pass? ==> forall j, i | 0 <= j < 3 && 0 <= i < NumCones() ::
        duals[j].value.data[i] == value[3 * i + j]
    {
      RecoverDualsLength(value, ShapeOf(x));
      match RecoverDuals(value, ShapeOf(x), ShapeOf(y), ShapeOf(z))
      case Err(e) =>
        r := Fail(e);
      case Ok((dv0, dv1, dv2)) =>
        duals := [Some(dv0), Some(dv1), Some(dv2)];
        r := Pass;
    }

    /**
     * The relative-entropy surrogate over `(y, z, -x)` with quadrature parameters `m`, `k`;
     * it describes the same cones, so it has the same bookkeeping.
     */
    method AsQuadApprox(m: int, k: int) returns (q: RelEntrQuad)
      requires Valid()
      ensures fresh(q) && q.Valid()
      ensures q.x == y && q.y == z && q.z == Neg(x)
      ensures q.GetData() == [m, k]
      ensures q.duals == [None, None, None]
      ensures q.NumCones() == NumCones() && q.Size() == Size()
      ensures q.Shape() == Shape() && q.ConeSizes() == ConeSizes()
    {
      var r := RelEntrQuad.Make(y, z, Neg(x), m, k);
      q := r.value;
    }
  }

  /** The quadrature approximation of the scalar relative-entropy cone, elementwise. */
  class RelEntrQuad {
    const x: Expr
    const y: Expr
    const z: Expr
    /** The number of quadrature nodes. */
    const m: int
    /** The approximation order. */
    const k: int
    /** The dual values of `x`, `y` and `z`, in that order. */
    var duals: seq<Option<Tensor>>

    ghost predicate Valid()
      reads this
    {
      SameShape(x, y, z) && |duals| == 3
    }

    /** Builds an instance whose operands are already known to agree; `Make` is the checked entry. */
    constructor (x: Expr, y: Expr, z: Expr, m: int, k: int)
      requires SameShape(x, y, z)
      ensures Valid()
      ensures this.x == x && this.y == y && this.z == z && this.m == m && this.k == k
      ensures duals == [None, None, None]
    {
      this.x := x;
      this.y := y;
      this.z := z;
      this.m := m;
      this.k := k;
      duals := [None, None, None];
    }

    /** Construction: succeeds exactly when the three shapes agree, and otherwise raises. */
    static method Make(x: Expr, y: Expr, z: Expr, m: int, k: int) returns (r: Result<RelEntrQuad, Error>)
      ensures r.Ok? <==> SameShape(x, y, z)
      ensures r.Ok? ==> fresh(r.value) && r.value.Valid()
      ensures r.Ok? ==> r.value.x == x && r.value.y == y && r.value.z == z
      ensures r.Ok? ==> r.value.m == m && r.value.k == k
      ensures r.Ok? ==> r.value.duals == [None, None, None]
      ensures r.Err? ==> r.error == ShapeMismatch(ShapeOf(x), ShapeOf(y), ShapeOf(z))
    {
      match CheckShapes(x, y, z)
      case Fail(e) =>
        r := Err(e);
      case Pass =>
        var c := new RelEntrQuad(x, y, z, m, k);
        r := Ok(c);
    }

    /** The parameters needed to rebuild an equivalent instance besides its operands. */
    function GetData(): (r: seq<int>)
      ensures |r| == 2 && r[0] == m && r[1] == k
    {
      [m, k]
    }

    /** One elementwise cone per scalar entry of `x`, and so of each operand once shapes agree. */
    function NumCones(): (n: nat)
      ensures SameShape(x, y, z) ==> n == NumElements(ShapeOf(y)) && n == NumElements(ShapeOf(z))
    {
      NumElements(ShapeOf(x))
    }

    /** The number of entries of all the cones together. */
    function Size(): (r: nat)
      ensures r == 3 * NumCones()
      ensures r == Sum(ConeSizes())
      ensures r == NumElements(Shape())
    {
      StackedLayout(ShapeOf(x));
      3 * NumCones()
    }

    /** The size of each elementwise cone. */
    function ConeSizes(): (r: seq<nat>)
      ensures |r| == NumCones()
      ensures forall i | 0 <= i < |r| :: r[i] == 3
    {
      seq(NumCones(), _ => 3)
    }

    /** A leading axis of length three enumerates the triple `(x_i, y_i, z_i)`. */
    function Shape(): (r: Shape)
      ensures |r| == |ShapeOf(x)| + 1 && r[0] == 3 && r[1..] == ShapeOf(x)
    {
      [3] + ShapeOf(x)
    }

    /** DCP exactly when every argument is affine, under the chosen analysis. */
    function IsDcp(dpp: bool): (r: bool)
      ensures r <==> IsAffine(x, dpp) && IsAffine(y, dpp) && IsAffine(z, dpp)
    {
      forall a | a in [x, y, z] :: IsAffine(a, dpp)
    }

    /** The cone has no geometric-programming reading. */
    function IsDgp(dpp: bool): (r: bool)
      ensures !r
    {
      false
    }

    /** DQCP agrees with DCP under the ordinary analysis. */
    function IsDqcp(): (r: bool)
      ensures r <==> IsAffine(x, false) && IsAffine(y, false) && IsAffine(z, false)
      ensures r == IsDcp(false)
    {
      IsDcp(false)
    }

    /** Dual recovery is not implemented for this constraint: the call returns and changes nothing. */
    method SaveDualValue(value: seq<real>)
      ensures unchanged(this)
    {
    }
  }

  /**
   * The surrogate built by `AsQuadApprox` certifies exactly as the exponential cone does,
   * under either analysis, since negation keeps affinity.
   */
  lemma QuadApproxCertifiesAlike(e: ExpCone, q: RelEntrQuad, dpp: bool)
    requires q.x == e.y && q.y == e.z && q.z == Neg(e.x)
    ensures q.IsDcp(dpp) == e.IsDcp(dpp)
    ensures q.IsDqcp() == e.IsDqcp()
  {
  }

  /**
   * Round trip of dual recovery on a constraint: handing `SaveDualValue` the interleaving
   * of three vectors with one entry per cone stores exactly those vectors, at the operands'
   * shape. The operands are `const` fields, so no call can change them.
   */
  method SaveInterleavedDuals(e: ExpCone, a: seq<real>, b: seq<real>, c: seq<real>)
    returns (r: Outcome<Error>)
    requires e.Valid()
    requires |a| == |b| == |c| == e.NumCones()
    modifies e
    ensures e.Valid() && r.Pass?
    ensures e.duals == [
      Some(Tensor(ShapeOf(e.x), a)),
      Some(Tensor(ShapeOf(e.y), b)),
      Some(Tensor(ShapeOf(e.z), c))]
  {
    InterleaveAt(a, b, c);
    ColumnsOfInterleave(a, b, c);
    r := e.SaveDualValue(Interleave(a, b, c));
  }
}
