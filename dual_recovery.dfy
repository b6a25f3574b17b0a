/**
 * Dual-value recovery for an elementwise exponential cone. The solver hands back one
 * flat vector in which the cones follow each other and each cone lists its three
 * entries in operand order: `(x_0, y_0, z_0, x_1, y_1, z_1, ...)`. Recovery views it
 * as `(-1, 3)` in row-major order, takes the three columns and views each at its
 * operand's shape.
 */
module DualRecovery {

  import opened Results
  import opened Terms

  /** Column `j` of the row-major `(-1, 3)` view of `v`: entry `i` is `v[3*i + j]`. */
  function Column(v: seq<real>, j: nat): seq<real>
    requires j < 3
  {
    seq(|v| / 3, i requires 0 <= i < |v| / 3 => v[3 * i + j])
  }

  /** The solver's layout: the cones one after another, each as the triple `(a_i, b_i, c_i)`. */
  function Interleave(a: seq<real>, b: seq<real>, c: seq<real>): seq<real>
    requires |a| == |b| == |c|
  {
    if a == [] then [] else [a[0], b[0], c[0]] + Interleave(a[1..], b[1..], c[1..])
  }

  /** Where each entry of the three operand vectors lands in the interleaved vector. */
  lemma {:induction false} InterleaveAt(a: seq<real>, b: seq<real>, c: seq<real>)
    requires |a| == |b| == |c|
    ensures |Interleave(a, b, c)| == 3 * |a|
    ensures forall i | 0 <= i < |a| ::
      Interleave(a, b, c)[3 * i] == a[i] &&
      Interleave(a, b, c)[3 * i + 1] == b[i] &&
      Interleave(a, b, c)[3 * i + 2] == c[i]
  {
    if a != [] {
      InterleaveAt(a[1..], b[1..], c[1..]);
      var v := Interleave(a, b, c);
      var rest := Interleave(a[1..], b[1..], c[1..]);
      assert v == [a[0], b[0], c[0]] + rest;
      forall i | 1 <= i < |a|
        ensures v[3 * i] == a[i] && v[3 * i + 1] == b[i] && v[3 * i + 2] == c[i]
      {
        assert v[3 * i] == rest[3 * (i - 1)];
        assert v[3 * i + 1] == rest[3 * (i - 1) + 1];
        assert v[3 * i + 2] == rest[3 * (i - 1) + 2];
      }
    }
  }

  /** Taking the columns of an interleaved vector gives back the three vectors. */
  lemma ColumnsOfInterleave(a: seq<real>, b: seq<real>, c: seq<real>)
    requires |a| == |b| == |c|
    ensures Column(Interleave(a, b, c), 0) == a
    ensures Column(Interleave(a, b, c), 1) == b
    ensures Column(Interleave(a, b, c), 2) == c
  {
    InterleaveAt(a, b, c);
    var v := Interleave(a, b, c);
    assert |v| / 3 == |a|;
    forall i | 0 <= i < |a|
      ensures Column(v, 0)[i] == a[i] && Column(v, 1)[i] == b[i] && Column(v, 2)[i] == c[i]
    {
    }
  }

  /** Interleaving the three columns of a vector whose length is a multiple of 3 gives it back. */
  lemma InterleaveOfColumns(v: seq<real>)
    requires |v| % 3 == 0
    ensures Interleave(Column(v, 0), Column(v, 1), Column(v, 2)) == v
  {
    var a, b, c := Column(v, 0), Column(v, 1), Column(v, 2);
    InterleaveAt(a, b, c);
    var w := Interleave(a, b, c);
    forall k | 0 <= k < |v|
      ensures w[k] == v[k]
    {
      var i := k / 3;
      assert 0 <= i < |a| && 3 * i <= k < 3 * i + 3;
      if k == 3 * i {
        assert w[k] == a[i];
      } else if k == 3 * i + 1 {
        assert w[k] == b[i];
      } else {
        assert w[k] == c[i];
      }
    }
  }

  /**
   * `save_dual_value`'s computation: the `(-1, 3)` reshape, then one reshape per column
   * to the shape of the operand it belongs to, failing at the first reshape that fails.
   */
  function RecoverDuals(value: seq<real>, xs: Shape, ys: Shape, zs: Shape)
    : (r: Result<(Tensor, Tensor, Tensor), Error>)
    ensures r.Ok? <==> |value| % 3 == 0 && |value| / 3 == NumElements(xs) == NumElements(ys) == NumElements(zs)
    ensures r.Err? ==> r.error.ReshapeError?
    ensures r.Ok? ==>
      && r.value.0.shape == xs && r.value.1.shape == ys && r.value.2.shape == zs
      && |r.value.0.data| == |r.value.1.data| == |r.value.2.data| == |value| / 3
      && forall i | 0 <= i < |value| / 3 ::
           r.value.0.data[i] == value[3 * i] &&
           r.value.1.data[i] == value[3 * i + 1] &&
           r.value.2.data[i] == value[3 * i + 2]
  {
    if |value| % 3 != 0 then Err(ReshapeError(|value|, Triples))
    else
      match Reshape(Column(value, 0), xs)
      case Err(e) => Err(e)
      case Ok(dv0) =>
        match Reshape(Column(value, 1), ys)
        case Err(e) => Err(e)
        case Ok(dv1) =>
          match Reshape(Column(value, 2), zs)
          case Err(e) => Err(e)
          case Ok(dv2) => Ok((dv0, dv1, dv2))
  }

  /** For operands of one common shape, recovery fails exactly when the length is not three per entry. */
  lemma RecoverDualsLength(value: seq<real>, s: Shape)
    ensures RecoverDuals(value, s, s, s).Ok? <==> |value| == 3 * NumElements(s)
  {
  }

  /** Round trip: recovering an interleaved vector stores the three per-operand vectors, at the shape. */
  lemma RecoverInterleaved(a: seq<real>, b: seq<real>, c: seq<real>, s: Shape)
    requires |a| == |b| == |c| == NumElements(s)
    ensures RecoverDuals(Interleave(a, b, c), s, s, s) == Ok((Tensor(s, a), Tensor(s, b), Tensor(s, c)))
  {
    InterleaveAt(a, b, c);
    ColumnsOfInterleave(a, b, c);
  }

  /** Round trip the other way: a successful recovery loses no entry of the solver's vector. */
  lemma InterleaveRecovered(value: seq<real>, s: Shape)
    requires RecoverDuals(value, s, s, s).Ok?
    ensures var t := RecoverDuals(value, s, s, s).value;
      Interleave(t.0.data, t.1.data, t.2.data) == value
  {
    InterleaveOfColumns(value);
  }
}
