# Exponential-cone constraints of cvxpy, modelled in Dafny

This project models `cvxpy/constraints/exponential.py`: the two elementwise cone
constraints `ExpCone` (the reformulated exponential cone) and `RelEntrQuad` (a
quadrature approximation of the scalar relative-entropy cone, with parameters `m` and
`k`). Each takes three operands `x`, `y`, `z` of one common shape `S` and stands for one
three-entry cone per scalar entry of `S`.

What is modelled:

- **Operands** (`Terms`): a shape is a `seq<nat>`, its element count the product of its
  dimensions. An operand is a `Leaf` with a shape and two affinity verdicts (ordinary and
  parametrized analysis), or `Neg` of an operand, which keeps both shape and affinity.
- **Construction** (`ExpCone.Make`, `RelEntrQuad.Make`): the constructors raise a
  `ValueError` unless the three shapes agree. This is modelled as a `Result` holding either
  a fresh object or `ShapeMismatch` with the three shapes. Operands, `m` and `k` are
  `const` fields. The only mutable state is `duals`, the three dual-value slots, which
  start empty (`None`).
- **Bookkeeping**: `NumCones`, `Size`, `ConeSizes` and `Shape` in both classes. `Size`
  is proved to equal both the sum of `ConeSizes()` and the element count of `Shape()`.
  The source file repeats these definitions in both classes, and so does the model: each
  class's members cite that class's own lines. The proofs they share are stated once, in
  `SumOfTriples` and `StackedLayout`.
- **Certification**: `IsDcp(dpp)`, `IsDgp(dpp)` and `IsDqcp()`. The parametrized (DPP)
  analysis scope is the `dpp` argument of the affinity oracle `IsAffine`.
- **Dual recovery** (`DualRecovery.RecoverDuals`, `ExpCone.SaveDualValue`): numpy's
  `reshape(value, (-1, 3))` in row-major order, then one reshape per column to that
  operand's shape. It fails with a `ReshapeError` at the first reshape that fails, and then
  stores nothing. It is proved to be the inverse of interleaving, in both directions.
- **Conversion** (`ExpCone.AsQuadApprox`): builds a `RelEntrQuad` over `(y, z, -x)` that
  carries `m` and `k`. Its shape, size and cone sizes equal the source cone's, and it
  certifies the same way.

Two details of the code the model keeps as they are:

- Neither constructor checks `m` or `k` (cvxpy/constraints/exponential.py:171-183), so the
  model accepts any `int` for both.
- `RelEntrQuad.save_dual_value` is a stub that returns silently
  (cvxpy/constraints/exponential.py:251-253), so `RelEntrQuad.SaveDualValue` changes
  nothing and reports nothing.

## Model

| member | source | states |
|---|---|---|
| `Terms.NumElements` | cvxpy/constraints/exponential.py:97-100 | the element count of a shape (numpy `size`) is 1 for a scalar shape and 0 exactly when some axis has length 0 |
| `Terms.Reshape` | cvxpy/constraints/exponential.py:137-139 | viewing a flat vector at a shape succeeds exactly when the element counts agree; it keeps the entries in order, and otherwise raises a reshape error naming the count and the target shape |
| `Exponential.CheckShapes` | cvxpy/constraints/exponential.py:62-66 | validation passes exactly when x, y and z have the same shape; otherwise the error carries all three shapes |
| `Exponential.ExpCone.constructor` | cvxpy/constraints/exponential.py:57-68 | with matching shapes, the new constraint holds the given operands and three empty dual slots |
| `Exponential.ExpCone.Make` | cvxpy/constraints/exponential.py:57-68 | construction yields a constraint if and only if the three shapes agree; otherwise no object exists and ShapeMismatch(xs, ys, zs) is raised |
| `Exponential.ExpCone.NumCones` | cvxpy/constraints/exponential.py:97-100 | the cone count is the element count of x, and so also of y and z once shapes agree |
| `Exponential.ExpCone.Size` | cvxpy/constraints/exponential.py:91-95 | size is 3 * num_cones, equals the sum of cone_sizes, and equals the element count of shape |
| `Exponential.ExpCone.ConeSizes` | cvxpy/constraints/exponential.py:105-113 | exactly num_cones entries, each equal to 3 |
| `Exponential.ExpCone.Shape` | cvxpy/constraints/exponential.py:129-132 | shape is (3,) followed by x's shape |
| `Exponential.ExpCone.IsDcp` | cvxpy/constraints/exponential.py:115-121 | DCP if and only if x, y and z are all affine, under the ordinary or the parametrized analysis as `dpp` selects |
| `Exponential.ExpCone.IsDgp` | cvxpy/constraints/exponential.py:123-124 | never DGP, for every instance and either analysis |
| `Exponential.ExpCone.IsDqcp` | cvxpy/constraints/exponential.py:126-127 | DQCP if and only if DCP under the ordinary analysis, that is, all three operands affine |
| `Exponential.ExpCone.SaveDualValue` | cvxpy/constraints/exponential.py:134-142 | succeeds exactly when the vector has `size` entries; slot j (x, y, z) then holds, at entry i, value[3*i + j], with that operand's shape; on failure a reshape error is raised and the slots are unchanged |
| `Exponential.ExpCone.AsQuadApprox` | cvxpy/constraints/exponential.py:102-103 | yields a fresh RelEntrQuad over (y, z, Neg(x)) with get_data() == [m, k], empty dual slots, and the same num_cones, size, shape and cone_sizes as the source cone |
| `Exponential.RelEntrQuad.constructor` | cvxpy/constraints/exponential.py:171-183 | with matching shapes, the new constraint holds the given operands, m, k and three empty dual slots |
| `Exponential.RelEntrQuad.Make` | cvxpy/constraints/exponential.py:171-183 | construction yields a constraint carrying m and k if and only if the three shapes agree; otherwise ShapeMismatch(xs, ys, zs) is raised |
| `Exponential.RelEntrQuad.GetData` | cvxpy/constraints/exponential.py:185-186 | the reconstruction data is the two-element list [m, k] |
| `Exponential.RelEntrQuad.NumCones` | cvxpy/constraints/exponential.py:217-220 | the cone count is the element count of x, and so also of y and z once shapes agree |
| `Exponential.RelEntrQuad.Size` | cvxpy/constraints/exponential.py:211-215 | size is 3 * num_cones, equals the sum of cone_sizes, and equals the element count of shape |
| `Exponential.RelEntrQuad.ConeSizes` | cvxpy/constraints/exponential.py:222-230 | exactly num_cones entries, each equal to 3 |
| `Exponential.RelEntrQuad.Shape` | cvxpy/constraints/exponential.py:246-249 | shape is (3,) followed by x's shape |
| `Exponential.RelEntrQuad.IsDcp` | cvxpy/constraints/exponential.py:232-238 | DCP if and only if x, y and z are all affine, under the analysis `dpp` selects |
| `Exponential.RelEntrQuad.IsDgp` | cvxpy/constraints/exponential.py:240-241 | never DGP |
| `Exponential.RelEntrQuad.IsDqcp` | cvxpy/constraints/exponential.py:243-244 | DQCP if and only if DCP under the ordinary analysis |
| `Exponential.RelEntrQuad.SaveDualValue` | cvxpy/constraints/exponential.py:251-253 | a no-op: the constraint's state, dual slots included, is unchanged |
| `Exponential.SumOfTriples` | cvxpy/constraints/exponential.py:105-113 | n cones of three entries each add up to 3 * n entries (by induction on n) |
| `Exponential.StackedLayout` | cvxpy/constraints/exponential.py:129-132 | the element count of (3,) + S is 3 times that of S, which is also the sum of the cone sizes |
| `Exponential.QuadApproxCertifiesAlike` | cvxpy/constraints/exponential.py:102-103 | the RelEntrQuad over (y, z, -x) is DCP under either analysis, and DQCP, exactly when the source ExpCone is |
| `Exponential.SaveInterleavedDuals` | cvxpy/constraints/exponential.py:134-142 | on a constraint, saving the interleaving of three one-entry-per-cone vectors succeeds and stores exactly those vectors in slots x, y, z at the operands' shape |
| `DualRecovery.RecoverDuals` | cvxpy/constraints/exponential.py:136-139 | recovery succeeds exactly when the length is a multiple of 3 whose third equals every operand's element count; it never raises anything but a reshape error; column j gets value[3*i + j] at entry i, at its operand's shape |
| `DualRecovery.RecoverDualsLength` | cvxpy/constraints/exponential.py:136-139 | for a common shape S, recovery succeeds if and only if the vector has exactly 3 * size(S) entries |
| `DualRecovery.InterleaveAt` | cvxpy/constraints/exponential.py:136 | the row-major per-cone layout puts a[i], b[i], c[i] at 3i, 3i+1, 3i+2, in a vector three times as long |
| `DualRecovery.ColumnsOfInterleave` | cvxpy/constraints/exponential.py:136-139 | the three columns of an interleaved vector are the three vectors it was built from |
| `DualRecovery.InterleaveOfColumns` | cvxpy/constraints/exponential.py:136-139 | interleaving the three columns of a vector whose length is a multiple of 3 gives the vector back |
| `DualRecovery.RecoverInterleaved` | cvxpy/constraints/exponential.py:134-139 | recovering the interleaving of three vectors of size(S) entries yields exactly those vectors, at shape S |
| `DualRecovery.InterleaveRecovered` | cvxpy/constraints/exponential.py:134-139 | a successful recovery loses nothing: interleaving the recovered data gives the solver's vector back |

## Left out

- `residual` (both classes): it builds and solves a nested optimisation problem through the
  external solver, with floating-point norms. That is a foreign call plus numerics.
- `Expression.cast_to_const` and `is_affine`: these are expression-graph logic. An operand
  carries its shape and its affinity verdicts as given data. The model only fixes that
  negation keeps both, as cvxpy's negation atom does.
- `scopes.dpp_scope()`: this ambient analysis mode is the `dpp` argument of `IsAffine`. How
  the mode changes the verdict is left to the oracle.
- `__str__` and `__repr__`: they only render text through the external expression printer.
- The `Constraint` base class, `constr_id`, and the dual `Variable` objects with their
  `save_value`: each dual slot is an `Option<Tensor>` field. Any checks `save_value` makes
  are not part of this model.
- Dual values are real numbers (`real`), not floating point. numpy dtypes are not modelled.
  The dual vector is taken to be one-dimensional.
- Error messages: errors carry the data they report, not the message text.
