/** Flow vectors over a fixed chemical order, and the componentwise
    arithmetic that numpy performs on them. */
module Vectors {

  /** Sum of all entries (numpy's `sum`). The recursion lives in
      `SumPrefix`; this non-recursive name lets totals that appear inside
      products be matched as plain terms. */
  function Sum(s: seq<real>): real
  {
    SumPrefix(s)
  }

  function SumPrefix(s: seq<real>): real
  {
    if |s| == 0 then 0.0 else SumPrefix(s[..|s| - 1]) + s[|s| - 1]
  }

  function Scale(s: seq<real>, c: real): (r: seq<real>)
    ensures |r| == |s|
  {
    seq(|s|, i requires 0 <= i < |s| => s[i] * c)
  }

  function Add(a: seq<real>, b: seq<real>): (r: seq<real>)
    requires |a| == |b|
    ensures |r| == |a|
  {
    seq(|a|, i requires 0 <= i < |a| => a[i] + b[i])
  }

  function Sub(a: seq<real>, b: seq<real>): (r: seq<real>)
    requires |a| == |b|
    ensures |r| == |a|
  {
    seq(|a|, i requires 0 <= i < |a| => a[i] - b[i])
  }

  /** Componentwise product (numpy's `a * b` on arrays of one shape). */
  function Mul(a: seq<real>, b: seq<real>): (r: seq<real>)
    requires |a| == |b|
    ensures |r| == |a|
  {
    seq(|a|, i requires 0 <= i < |a| => a[i] * b[i])
  }

  function Zeros(n: nat): (r: seq<real>)
    ensures |r| == n
  {
    seq(n, i => 0.0)
  }

  predicate AllZero(s: seq<real>)
  {
    forall i :: 0 <= i < |s| ==> s[i] == 0.0
  }

  predicate NonNegative(s: seq<real>)
  {
    forall i :: 0 <= i < |s| ==> s[i] >= 0.0
  }

  predicate NonZero(s: seq<real>)
  {
    forall i :: 0 <= i < |s| ==> s[i] != 0.0
  }

  predicate InRange(idx: seq<nat>, n: nat)
  {
    forall k :: 0 <= k < |idx| ==> idx[k] < n
  }

  predicate Distinct(idx: seq<nat>)
  {
    forall a, b :: 0 <= a < b < |idx| ==> idx[a] != idx[b]
  }

  /** The entries of `s` at the positions `idx`, in that order
      (numpy's fancy read `s[idx]`). */
  function Gather(s: seq<real>, idx: seq<nat>): (r: seq<real>)
    requires InRange(idx, |s|)
    ensures |r| == |idx|
  {
    seq(|idx|, k requires 0 <= k < |idx| => s[idx[k]])
  }

  /** Writes `vals` at the positions `idx` of `s`: the writes happen in order,
      so with a repeated index the last value wins. */
  function Assign(s: seq<real>, idx: seq<nat>, vals: seq<real>): (r: seq<real>)
    requires InRange(idx, |s|) && |vals| == |idx|
    ensures |r| == |s|
  {
    if |idx| == 0 then s
    else Assign(s, idx[..|idx| - 1], vals[..|idx| - 1])[idx[|idx| - 1] := vals[|idx| - 1]]
  }

  lemma {:induction false} SumScale(s: seq<real>, c: real)
    ensures Sum(Scale(s, c)) == c * Sum(s)
  {
    if |s| > 0 {
      var n := |s| - 1;
      assert forall i :: 0 <= i < n ==> Scale(s, c)[..n][i] == Scale(s[..n], c)[i];
      assert Scale(s, c)[..n] == Scale(s[..n], c);
      SumScale(s[..n], c);
    }
  }

  lemma {:induction false} SumAdd(a: seq<real>, b: seq<real>)
    requires |a| == |b|
    ensures Sum(Add(a, b)) == Sum(a) + Sum(b)
  {
    if |a| > 0 {
      var n := |a| - 1;
      assert Add(a, b)[..n] == Add(a[..n], b[..n]);
      SumAdd(a[..n], b[..n]);
    }
  }

  lemma {:induction false} SumSub(a: seq<real>, b: seq<real>)
    requires |a| == |b|
    ensures Sum(Sub(a, b)) == Sum(a) - Sum(b)
  {
    if |a| > 0 {
      var n := |a| - 1;
      assert Sub(a, b)[..n] == Sub(a[..n], b[..n]);
      SumSub(a[..n], b[..n]);
    }
  }

  lemma {:induction false} SumAllZero(s: seq<real>)
    requires AllZero(s)
    ensures Sum(s) == 0.0
  {
    if |s| > 0 {
      SumAllZero(s[..|s| - 1]);
    }
  }

  lemma {:induction false} SumNonNegative(s: seq<real>)
    requires NonNegative(s)
    ensures Sum(s) >= 0.0
  {
    if |s| > 0 {
      SumNonNegative(s[..|s| - 1]);
    }
  }

  /** Entries of `Assign` outside `idx` keep their old values. */
  lemma {:induction false} AssignOutside(s: seq<real>, idx: seq<nat>, vals: seq<real>, j: nat)
    requires InRange(idx, |s|) && |vals| == |idx| && j < |s|
    requires forall k :: 0 <= k < |idx| ==> idx[k] != j
    ensures Assign(s, idx, vals)[j] == s[j]
  {
    if |idx| > 0 {
      AssignOutside(s, idx[..|idx| - 1], vals[..|idx| - 1], j);
    }
  }

  /** With distinct indices every written value can be read back. */
  lemma {:induction false} AssignAt(s: seq<real>, idx: seq<nat>, vals: seq<real>, k: nat)
    requires InRange(idx, |s|) && |vals| == |idx| && Distinct(idx) && k < |idx|
    ensures Assign(s, idx, vals)[idx[k]] == vals[k]
  {
    var n := |idx| - 1;
    if k < n {
      AssignAt(s, idx[..n], vals[..n], k);
    }
  }

  /** Reading back what was just written with distinct indices gives the
      written values. */
  lemma GatherAssign(s: seq<real>, idx: seq<nat>, vals: seq<real>)
    requires InRange(idx, |s|) && |vals| == |idx| && Distinct(idx)
    ensures Gather(Assign(s, idx, vals), idx) == vals
  {
    forall k | 0 <= k < |idx|
      ensures Gather(Assign(s, idx, vals), idx)[k] == vals[k]
    {
      AssignAt(s, idx, vals, k);
    }
  }

  /** Overwriting one entry changes the sum by the difference. */
  lemma {:induction false} SumUpdate(s: seq<real>, w: nat, v: real)
    requires w < |s|
    ensures Sum(s[w := v]) == Sum(s) - s[w] + v
  {
    var n := |s| - 1;
    if w < n {
      assert s[w := v][..n] == s[..n][w := v];
      SumUpdate(s[..n], w, v);
    } else {
      assert s[w := v][..n] == s[..n];
    }
  }

  /** The share `split` takes of `m` and the rest of `m` add up to `m`. */
  lemma SplitShares(m: seq<real>, split: seq<real>)
    requires |split| == |m|
    ensures Add(Mul(m, split), Sub(m, Mul(m, split))) == m
  {
    forall i | 0 <= i < |m|
      ensures Add(Mul(m, split), Sub(m, Mul(m, split)))[i] == m[i]
    {
    }
  }

  /** Every vector in `cols` has length `n`. */
  predicate Rectangular(cols: seq<seq<real>>, n: nat)
  {
    forall c :: 0 <= c < |cols| ==> |cols[c]| == n
  }

  /** The dot product. */
  function Dot(u: seq<real>, v: seq<real>): real
    requires |u| == |v|
  {
    Sum(Mul(u, v))
  }

  /** Sum of equally long vectors. */
  function VecSum(vs: seq<seq<real>>, n: nat): (y: seq<real>)
    requires Rectangular(vs, n)
    ensures |y| == n
  {
    if |vs| == 0 then Zeros(n) else Add(VecSum(vs[..|vs| - 1], n), vs[|vs| - 1])
  }
}
