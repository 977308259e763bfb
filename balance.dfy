/** `material_balance`: the variable inlets' flows are rescaled, each by
    its own factor, so that the flows of the chosen chemicals balance the
    constant outlets. The linear solve and the composition iteration are
    parameters. */
module MaterialBalance {
  import opened Wrappers
  import opened Exceptions
  import opened Vectors
  import opened Streams

  // ---------------------------------------------------------------------
  // The linear system
  // ---------------------------------------------------------------------

  /** The molar arrays of `streams`, one per column. */
  function Columns(streams: seq<Stream>): (cols: seq<seq<real>>)
    reads set s | s in streams :: s
    reads set s | s in streams :: s.imol
    reads set s | s in streams :: s.imol.data
    ensures |cols| == |streams|
    ensures forall c :: 0 <= c < |streams| ==> cols[c] == streams[c].Mol()
  {
    seq(|streams|, c requires 0 <= c < |streams|
                     reads set s | s in streams :: s
                     reads set s | s in streams :: s.imol
                     reads set s | s in streams :: s.imol.data
                   => assert streams[c] in streams; streams[c].Mol())
  }

  /** Row `j` of the matrix whose columns are `cols`. */
  function Row(cols: seq<seq<real>>, j: nat): (row: seq<real>)
    requires forall c :: 0 <= c < |cols| ==> j < |cols[c]|
    ensures |row| == |cols| && forall c :: 0 <= c < |cols| ==> row[c] == cols[c][j]
  {
    seq(|cols|, c requires 0 <= c < |cols| => cols[c][j])
  }

  /** The flow matrix: the variable inlets' molar flows as columns, cut
      down to the rows of the chosen chemicals `IDs`. */
  function FlowMatrix(cols: seq<seq<real>>, IDs: seq<nat>, n: nat): (A: seq<seq<real>>)
    requires Rectangular(cols, n) && InRange(IDs, n)
    ensures |A| == |IDs| && forall r :: 0 <= r < |IDs| ==> A[r] == Row(cols, IDs[r])
  {
    seq(|IDs|, r requires 0 <= r < |IDs| => Row(cols, IDs[r]))
  }

  /** The matrix-vector product `A @ x`. */
  function MatVec(A: seq<seq<real>>, x: seq<real>): (y: seq<real>)
    requires forall r :: 0 <= r < |A| ==> |A[r]| == |x|
    ensures |y| == |A| && forall r :: 0 <= r < |A| ==> y[r] == Dot(A[r], x)
  {
    seq(|A|, r requires 0 <= r < |A| => Dot(A[r], x))
  }

  /** The flows after scaling column `c` by `x[c]` and adding them up. */
  function Combine(cols: seq<seq<real>>, x: seq<real>, n: nat): (y: seq<real>)
    requires Rectangular(cols, n) && |x| == |cols|
    ensures |y| == n
  {
    if |cols| == 0 then Zeros(n)
    else Add(Combine(cols[..|cols| - 1], x[..|cols| - 1], n), Scale(cols[|cols| - 1], x[|cols| - 1]))
  }

  /** Entry `j` of the combined flows is row `j` of the matrix times `x`. */
  lemma {:induction false} CombineAt(cols: seq<seq<real>>, x: seq<real>, n: nat, j: nat)
    requires Rectangular(cols, n) && |x| == |cols| && j < n
    ensures Combine(cols, x, n)[j] == Dot(Row(cols, j), x)
  {
    if |cols| > 0 {
      var k := |cols| - 1;
      CombineAt(cols[..k], x[..k], n, j);
      var m := Mul(Row(cols, j), x);
      var p := Mul(Row(cols[..k], j), x[..k]);
      assert |m[..k]| == |p|;
      assert forall c :: 0 <= c < k ==> m[..k][c] == p[c];
      assert m[..k] == p;
    }
  }

  /** The system the flow branch solves, `A x = f - g`, holds exactly when
      the variable inlets scaled by `x`, with the constant inlets `g`, give
      the outlets' flows `f` of the chosen chemicals. */
  lemma FlowBalanceCloses(cols: seq<seq<real>>, IDs: seq<nat>, n: nat, x: seq<real>, f: seq<real>, g: seq<real>)
    requires Rectangular(cols, n) && InRange(IDs, n) && |x| == |cols|
    requires |f| == |IDs| && |g| == |IDs|
    ensures MatVec(FlowMatrix(cols, IDs, n), x) == Sub(f, g)
        <==> Add(Gather(Combine(cols, x, n), IDs), g) == f
  {
    var y := MatVec(FlowMatrix(cols, IDs, n), x);
    var z := Gather(Combine(cols, x, n), IDs);
    forall r | 0 <= r < |IDs|
      ensures y[r] == z[r]
    {
      CombineAt(cols, x, n, IDs[r]);
    }
    assert y == z;
    if y == Sub(f, g) {
      assert forall r :: 0 <= r < |IDs| ==> Add(z, g)[r] == f[r];
    }
    if Add(z, g) == f {
      assert forall r :: 0 <= r < |IDs| ==> y[r] == Sub(f, g)[r];
    }
  }

  // ---------------------------------------------------------------------
  // Rescaling the variable inlets
  // ---------------------------------------------------------------------

  /** The molar arrays of `streams` (their identities, not their
      contents). */
  function Arrays(streams: seq<Stream>): (arrays: seq<array<real>>)
    reads set s | s in streams :: s
    reads set s | s in streams :: s.imol
    ensures |arrays| == |streams| && forall i :: 0 <= i < |streams| ==> arrays[i] == streams[i].imol.data
  {
    seq(|streams|, i requires 0 <= i < |streams|
                     reads set s | s in streams :: s
                     reads set s | s in streams :: s.imol
                   => assert streams[i] in streams; streams[i].imol.data)
  }

  /** The product of the factors applied, among the first `k`, to the
      inlets whose molar array is `a`. */
  function Factor(arrays: seq<array<real>>, x: seq<real>, k: nat, a: array<real>): real
    requires k <= |arrays| && k <= |x|
  {
    if k == 0 then 1.0
    else Factor(arrays, x, k - 1, a) * (if arrays[k - 1] == a then x[k - 1] else 1.0)
  }

  lemma FactorStep(arrays: seq<array<real>>, x: seq<real>, k: nat, a: array<real>)
    requires k < |arrays| && k < |x|
    ensures arrays[k] == a ==> Factor(arrays, x, k + 1, a) == Factor(arrays, x, k, a) * x[k]
    ensures arrays[k] != a ==> Factor(arrays, x, k + 1, a) == Factor(arrays, x, k, a)
  {
  }

  /** One pass of the loop on one inlet: scaled by `x[k]` when it shares
      the `k`-th inlet's array, untouched otherwise. */
  lemma ScaleStep(arrays: seq<array<real>>, x: seq<real>, k: nat, b: array<real>,
                  o: seq<real>, once: seq<real>, now: seq<real>)
    requires k < |arrays| && k < |x|
    requires once == Scale(o, Factor(arrays, x, k, b))
    requires arrays[k] == b ==> now == Scale(once, x[k])
    requires arrays[k] != b ==> now == once
    ensures now == Scale(o, Factor(arrays, x, k + 1, b))
  {
    if arrays[k] == b {
      var p, q := Factor(arrays, x, k, b), x[k];
      ScaledTwice(o, p, q, once, now);
      FactorNext(arrays, x, k, b, p, q);
    } else {
      FactorStep(arrays, x, k, b);
    }
  }

  lemma FactorNext(arrays: seq<array<real>>, x: seq<real>, k: nat, a: array<real>, p: real, q: real)
    requires k < |arrays| && k < |x| && arrays[k] == a
    requires p == Factor(arrays, x, k, a) && q == x[k]
    ensures Factor(arrays, x, k + 1, a) == p * q
  {
  }

  predicate DistinctArrays(arrays: seq<array<real>>)
  {
    forall i, j :: 0 <= i < j < |arrays| ==> arrays[i] != arrays[j]
  }

  /** With no two inlets sharing an array, each of the first `k` inlets is
      scaled by its own factor alone and the rest are not scaled. */
  lemma {:induction false} FactorOfDistinct(arrays: seq<array<real>>, x: seq<real>, k: nat, i: nat)
    requires k <= |arrays| && k <= |x| && i < |arrays| && DistinctArrays(arrays)
    ensures Factor(arrays, x, k, arrays[i]) == if i < k then x[i] else 1.0
  {
    if k > 0 {
      FactorOfDistinct(arrays, x, k - 1, i);
    }
  }

  function Min(a: nat, b: nat): nat
  {
    if a < b then a else b
  }

  /** Scales each variable inlet's molar array in place by its own factor,
      inlet after inlet (pairs beyond the shorter of `inlets` and `x` are
      skipped). An array shared by several inlets is scaled once for each
      of them. */
  method ScaleInlets(inlets: seq<Stream>, x: seq<real>)
    modifies set s | s in inlets :: s.imol.data
    ensures forall i :: 0 <= i < |inlets| ==>
      inlets[i].Mol() == Scale(old(inlets[i].Mol()), Factor(Arrays(inlets), x, Min(|x|, |inlets|), inlets[i].imol.data))
  {
    var arrays := Arrays(inlets);
    ghost var start := Columns(inlets);
    var m := Min(|x|, |inlets|);
    var k := 0;
    while k < m
      invariant 0 <= k <= m
      invariant forall i :: 0 <= i < |inlets| ==> inlets[i].imol.data == arrays[i]
      invariant forall i :: 0 <= i < |inlets| ==> inlets[i].Mol() == Scale(start[i], Factor(arrays, x, k, arrays[i]))
    {
      ScaleNext(inlets, arrays, x, k, start);
      k := k + 1;
    }
    assert Arrays(inlets) == arrays;
  }

  /** One pass of the loop: the `k`-th inlet's array is scaled by `x[k]`. */
  method ScaleNext(inlets: seq<Stream>, arrays: seq<array<real>>, x: seq<real>, k: nat, ghost start: seq<seq<real>>)
    requires |arrays| == |inlets| && forall i :: 0 <= i < |inlets| ==> inlets[i].imol.data == arrays[i]
    requires k < |inlets| && k < |x| && |start| == |inlets|
    requires forall i :: 0 <= i < |inlets| ==> inlets[i].Mol() == Scale(start[i], Factor(arrays, x, k, arrays[i]))
    modifies arrays[k]
    ensures forall i :: 0 <= i < |inlets| ==> inlets[i].Mol() == Scale(start[i], Factor(arrays, x, k + 1, arrays[i]))
  {
    var a := arrays[k];
    label Before:
    ScaleArray(a, x[k]);
    forall i | 0 <= i < |inlets|
      ensures inlets[i].Mol() == Scale(start[i], Factor(arrays, x, k + 1, arrays[i]))
    {
      var once, now := old@Before(inlets[i].Mol()), inlets[i].Mol();
      assert arrays[i] == a ==> now == Scale(once, x[k]);
      assert arrays[i] != a ==> now == once;
      ScaleStep(arrays, x, k, arrays[i], start[i], once, now);
    }
  }

  /** Scales every entry of `a` by `c`, in place. */
  method ScaleArray(a: array<real>, c: real)
    modifies a
    ensures a[..] == Scale(old(a[..]), c)
  {
    forall j | 0 <= j < a.Length {
      a[j] := a[j] * c;
    }
    assert forall j :: 0 <= j < a.Length ==> a[..][j] == Scale(old(a[..]), c)[j];
  }

  lemma ScaledTwice(o: seq<real>, p: real, q: real, once: seq<real>, twice: seq<real>)
    requires once == Scale(o, p) && twice == Scale(once, q)
    ensures twice == Scale(o, p * q)
  {
    ScaleScale(o, p, q);
  }

  lemma ScaleScale(s: seq<real>, p: real, q: real)
    ensures Scale(Scale(s, p), q) == Scale(s, p * q)
  {
    assert forall j :: 0 <= j < |s| ==> Scale(Scale(s, p), q)[j] == Scale(s, p * q)[j];
  }

  // ---------------------------------------------------------------------
  // material_balance
  // ---------------------------------------------------------------------

  /** The composition branch's right-hand side: `f`, the outlets'
      composition at `IDs`, and `O`, the constant inlets' total flow times
      `f` less their flow of each chosen chemical. */
  function CompositionTargets(molOut: seq<real>, constantIn: seq<real>, IDs: seq<nat>): (r: (seq<real>, seq<real>))
    requires |constantIn| == |molOut| && InRange(IDs, |molOut|)
    ensures |r.0| == |IDs| && |r.1| == |IDs|
    ensures Sum(molOut) != 0.0 ==> forall k :: 0 <= k < |IDs| ==> r.0[k] * Sum(molOut) == molOut[IDs[k]]
    ensures forall k :: 0 <= k < |IDs| ==> r.1[k] == Sum(constantIn) * r.0[k] - constantIn[IDs[k]]
  {
    var f := Gather(Fractions(molOut), IDs);
    forall k | 0 <= k < |IDs| && Sum(molOut) != 0.0
      ensures f[k] * Sum(molOut) == molOut[IDs[k]]
    {
      FractionsRecover(molOut, IDs[k]);
    }
    (f, Sub(Scale(f, Sum(constantIn)), Gather(constantIn, IDs)))
  }

  /** `material_balance`. Errors, in the order the source meets them: no
      variable inlet (`ValueError`); in the flow branch no constant outlet
      (`TypeError`, from indexing the integer zero that summing no arrays
      gives) or a
      system the solver rejects (`LinAlgError`); in the composition branch
      no constant outlet (`AttributeError`, from asking that integer zero
      for its sum) or no constant
      inlet (`TypeError`); any other balance kind (`ValueError`). */
  method Balance(IDs: seq<nat>, variableInlets: seq<Stream>, constantInlets: seq<Stream>,
                 constantOutlets: seq<Stream>, balance: string, n: nat,
                 solve: (seq<seq<real>>, seq<real>) -> Option<seq<real>>,
                 iterate: (seq<seq<real>>, seq<seq<real>>, seq<real>, seq<real>) -> seq<real>)
    returns (r: Outcome<Error>)
    requires InRange(IDs, n)
    requires forall s :: s in variableInlets ==> s.imol.data.Length == n
    requires forall s :: s in constantInlets ==> s.imol.data.Length == n
    requires forall s :: s in constantOutlets ==> s.imol.data.Length == n
    modifies set s | s in variableInlets :: s.imol.data
    ensures |variableInlets| == 0 ==> r == Fail(ValueError)
    ensures |variableInlets| > 0 && balance == "flow" ==>
      var cols := old(Columns(variableInlets));
      var f := Gather(old(TotalMol(constantOutlets, n)), IDs);
      var g := Gather(old(TotalMol(constantInlets, n)), IDs);
      var sol := solve(FlowMatrix(cols, IDs, n), Sub(f, g));
      && (|constantOutlets| == 0 ==> r == Fail(TypeError))
      && (|constantOutlets| > 0 && sol.None? ==> r == Fail(LinAlgError))
      && (|constantOutlets| > 0 && sol.Some? ==>
            && r == Pass
            && (forall i :: 0 <= i < |variableInlets| ==>
                  variableInlets[i].Mol()
                  == Scale(cols[i], Factor(Arrays(variableInlets), sol.value, Min(|sol.value|, |variableInlets|),
                                           variableInlets[i].imol.data)))
            && (DistinctArrays(Arrays(variableInlets)) && |sol.value| == |variableInlets|
                && MatVec(FlowMatrix(cols, IDs, n), sol.value) == Sub(f, g) ==>
                  Add(Gather(VecSum(Columns(variableInlets), n), IDs), g) == f))
    ensures |variableInlets| > 0 && balance == "composition" ==>
      && (|constantOutlets| == 0 ==> r == Fail(AttributeError))
      && (|constantOutlets| > 0 && |constantInlets| == 0 ==> r == Fail(TypeError))
      && (|constantOutlets| > 0 && |constantInlets| > 0 ==> r == Pass)
    ensures |variableInlets| > 0 && balance != "flow" && balance != "composition" ==> r == Fail(ValueError)
    ensures r.Fail? ==> forall s :: s in variableInlets ==> s.Mol() == old(s.Mol())
  {
    if |variableInlets| == 0 {
      return Fail(ValueError);
    }
    var molOut := TotalMol(constantOutlets, n);
    var cols := Columns(variableInlets);
    if balance == "flow" {
      if |constantOutlets| == 0 {
        return Fail(TypeError);
      }
      var A := FlowMatrix(cols, IDs, n);
      var f := Gather(molOut, IDs);
      var g := Gather(TotalMol(constantInlets, n), IDs);
      var sol := solve(A, Sub(f, g));
      if sol.None? {
        return Fail(LinAlgError);
      }
      ScaleInlets(variableInlets, sol.value);
      r := Pass;
      var x := sol.value;
      if DistinctArrays(Arrays(variableInlets)) && |x| == |variableInlets| && MatVec(A, x) == Sub(f, g) {
        var scaled := Columns(variableInlets);
        forall c | 0 <= c < |cols|
          ensures scaled[c] == Scale(cols[c], x[c])
        {
          FactorOfDistinct(Arrays(variableInlets), x, |x|, c);
        }
        FlowBranchBalances(cols, scaled, IDs, n, x, f, g);
      }
    } else if balance == "composition" {
      if |constantOutlets| == 0 {
        return Fail(AttributeError);
      }
      if |constantInlets| == 0 {
        return Fail(TypeError);
      }
      var A := FlowMatrix(cols, IDs, n);
      var targets := CompositionTargets(molOut, TotalMol(constantInlets, n), IDs);
      var x := iterate(cols, A, targets.0, targets.1);
      ScaleInlets(variableInlets, x);
      r := Pass;
    } else {
      r := Fail(ValueError);
    }
  }

  /** When the inlets do not share arrays and the solver returns an exact
      solution, the flow branch leaves the chosen chemicals balanced: the
      rescaled variable inlets plus the constant inlets equal the constant
      outlets. */
  lemma {:induction false} FlowBranchBalances(cols: seq<seq<real>>, scaled: seq<seq<real>>, IDs: seq<nat>, n: nat,
                                              x: seq<real>, f: seq<real>, g: seq<real>)
    requires Rectangular(cols, n) && InRange(IDs, n) && |x| == |cols| && |f| == |IDs| && |g| == |IDs|
    requires |scaled| == |cols| && forall c :: 0 <= c < |cols| ==> scaled[c] == Scale(cols[c], x[c])
    requires MatVec(FlowMatrix(cols, IDs, n), x) == Sub(f, g)
    ensures Rectangular(scaled, n)
    ensures Add(Gather(VecSum(scaled, n), IDs), g) == f
  {
    FlowBalanceCloses(cols, IDs, n, x, f, g);
    CombineIsSum(cols, scaled, x, n);
  }

  lemma {:induction false} CombineIsSum(cols: seq<seq<real>>, scaled: seq<seq<real>>, x: seq<real>, n: nat)
    requires Rectangular(cols, n) && |x| == |cols|
    requires |scaled| == |cols| && forall c :: 0 <= c < |cols| ==> scaled[c] == Scale(cols[c], x[c])
    ensures Rectangular(scaled, n) && VecSum(scaled, n) == Combine(cols, x, n)
  {
    if |cols| > 0 {
      var k := |cols| - 1;
      CombineIsSum(cols[..k], scaled[..k], x[..k], n);
    }
  }
}
