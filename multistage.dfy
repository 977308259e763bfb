/** Multi-stage liquid-liquid extraction without side draws: the stages,
    their wiring into a counter-current cascade, the sequential update of
    extract and raffinate flows, and the tridiagonal system that gives one
    chemical's extract flows. The equilibrium of each stage and the linear
    solve are not modelled. */
module MultiStage {
  import opened Wrappers
  import opened Exceptions
  import opened Vectors
  import opened Thermo
  import opened Streams
  import opened MaterialBalance

  /** Default temperature (K) and pressure (Pa) of a stage. */
  const DefaultT: real := 298.15
  const DefaultP: real := 101325.0

  // ---------------------------------------------------------------------
  // One stage
  // ---------------------------------------------------------------------

  /** A stage: the streams entering it (`feed`, `solvent`; null until they
      are wired) and the two liquid phases leaving it. The two phases are
      the `'l'` (raffinate) and `'L'` (extract) views of one multi-phase
      stream, modelled as two streams that share one thermal condition. */
  class StageLLE {
    var feed: Stream?
    var solvent: Stream?
    const raffinate: Stream
    const extract: Stream
    const chemicals: Chemicals

    ghost predicate Valid()
      reads raffinate, extract, raffinate.imol, extract.imol
    {
      && chemicals.Valid()
      && raffinate.Valid() && extract.Valid()
      && raffinate.chemicals == chemicals && extract.chemicals == chemicals
      && raffinate.imol.data != extract.imol.data
    }

    constructor (chemicals: Chemicals, T: real, P: real)
      requires chemicals.Valid()
      ensures Valid() && this.chemicals == chemicals && feed == null && solvent == null
      ensures fresh(raffinate) && fresh(extract) && fresh(raffinate.imol) && fresh(extract.imol)
      ensures fresh(raffinate.imol.data) && fresh(extract.imol.data)
      ensures raffinate.TP == extract.TP && raffinate.T() == T && raffinate.P() == P
      ensures raffinate.CurrentPhase() == 'l' && extract.CurrentPhase() == 'L'
      ensures raffinate.Mol() == Zeros(chemicals.Size()) && extract.Mol() == Zeros(chemicals.Size())
    {
      var n := chemicals.Size();
      var TP := new ThermalCondition(T, P);
      var l := new MolarIndexer.FromData(Zeros(n), 'l');
      var L := new MolarIndexer.FromData(Zeros(n), 'L');
      raffinate := new Stream.Assemble(None, l, TP, Some(0.0), SinglePhase, chemicals);
      extract := new Stream.Assemble(None, L, TP, Some(0.0), SinglePhase, chemicals);
      this.chemicals := chemicals;
      feed := null;
      solvent := null;
    }

    /** The raffinate takes whatever of the feed and the solvent the
        extract does not: the stage's material balance then closes. A
        stage whose feed or solvent is not wired fails. */
    method BalanceRaffinateFlows() returns (r: Outcome<Error>)
      requires Valid()
      requires feed != null ==> feed.imol.data.Length == chemicals.Size()
      requires solvent != null ==> solvent.imol.data.Length == chemicals.Size()
      modifies raffinate.imol.data
      ensures feed == null || solvent == null ==> r == Fail(AttributeError) && raffinate.Mol() == old(raffinate.Mol())
      ensures feed != null && solvent != null ==>
        && r == Pass
        && raffinate.Mol() == Sub(Add(old(feed.Mol()), old(solvent.Mol())), old(extract.Mol()))
        && extract.Mol() == old(extract.Mol())
        && Add(raffinate.Mol(), extract.Mol()) == Add(old(feed.Mol()), old(solvent.Mol()))
    {
      if feed == null || solvent == null {
        return Fail(AttributeError);
      }
      var total := Add(feed.Mol(), solvent.Mol());
      var e := extract.Mol();
      raffinate.SetMol(Sub(total, e));
      assert Add(raffinate.Mol(), extract.Mol()) == total by {
        forall j | 0 <= j < |total|
          ensures Add(raffinate.Mol(), extract.Mol())[j] == total[j]
        {
        }
      }
      r := Pass;
    }
  }

  /** None of the arrays is in `repr`. */
  ghost predicate Outside(extracts: seq<array<real>>, raffinates: seq<array<real>>, repr: set<object>)
  {
    && (forall i :: 0 <= i < |extracts| ==> extracts[i] !in repr)
    && (forall i :: 0 <= i < |raffinates| ==> raffinates[i] !in repr)
  }

  /** The invariant of a cascade of `stages` between `feed` and `solvent`,
      whose phases hold the molar arrays `extracts` and `raffinates`: every
      stage is valid over the same chemicals, the stages are wired, no
      molar array appears twice, and the objects read are all in `repr`
      while the molar arrays are not. */
  ghost predicate Consistent(stages: seq<StageLLE>, chemicals: Chemicals, feed: Stream, solvent: Stream,
                             extracts: seq<array<real>>, raffinates: seq<array<real>>,
                             slot: map<array<real>, int>, repr: set<object>)
    reads repr
  {
    && feed in repr && solvent in repr && feed.imol in repr && solvent.imol in repr
    && (forall i :: 0 <= i < |stages| ==>
          && stages[i] in repr && stages[i].raffinate in repr && stages[i].extract in repr
          && stages[i].raffinate.imol in repr && stages[i].extract.imol in repr)
    && chemicals.Valid()
    && feed.Valid() && solvent.Valid() && feed.chemicals == chemicals && solvent.chemicals == chemicals
    && |extracts| == |stages| && |raffinates| == |stages|
    && (forall i :: 0 <= i < |stages| ==>
          && stages[i].Valid() && stages[i].chemicals == chemicals
          && stages[i].extract.imol.data == extracts[i]
          && stages[i].raffinate.imol.data == raffinates[i])
    && Chained(stages, feed, solvent)
    && Sized(extracts, chemicals.Size()) && Sized(raffinates, chemicals.Size())
    && Slotted(extracts, raffinates, slot) && Outside(extracts, raffinates, repr)
    && feed.imol.data !in slot && solvent.imol.data !in slot
  }

  /** A stage just built: its phases hold the arrays `e` and `r`, which
      are not in `repr` while the stage, its phases and their indexers
      are, and it is blank. */
  ghost predicate Built(s: StageLLE, chemicals: Chemicals, e: array<real>, r: array<real>, repr: set<object>)
    reads s.raffinate, s.extract, s.raffinate.imol, s.extract.imol, s.raffinate.imol.data, s.extract.imol.data
    reads s.raffinate.TP
  {
    && s in repr && s.raffinate in repr && s.extract in repr && s.raffinate.imol in repr && s.extract.imol in repr
    && e !in repr && r !in repr
    && s.extract.imol.data == e && s.raffinate.imol.data == r
    && Blank(s, chemicals)
  }

  /** Built stages, once wired between a valid feed and solvent whose
      arrays are not among the stages', make a consistent cascade. */
  lemma Assembled(stages: seq<StageLLE>, chemicals: Chemicals, feed: Stream, solvent: Stream,
                  extracts: seq<array<real>>, raffinates: seq<array<real>>,
                  slot: map<array<real>, int>, repr: set<object>)
    requires |extracts| == |stages| && |raffinates| == |stages|
    requires forall i :: 0 <= i < |stages| ==> Built(stages[i], chemicals, extracts[i], raffinates[i], repr)
    requires chemicals.Valid() && feed.Valid() && solvent.Valid()
    requires feed.chemicals == chemicals && solvent.chemicals == chemicals
    requires Chained(stages, feed, solvent)
    requires Slotted(extracts, raffinates, slot) && feed.imol.data !in slot && solvent.imol.data !in slot
    ensures Consistent(stages, chemicals, feed, solvent, extracts, raffinates, slot, repr + {feed, solvent, feed.imol, solvent.imol})
  {
  }

  /** A valid stage with no flow in either phase, at the default
      temperature and pressure. */
  ghost predicate Blank(s: StageLLE, chemicals: Chemicals)
    reads s.raffinate, s.extract, s.raffinate.imol, s.extract.imol, s.raffinate.imol.data, s.extract.imol.data
    reads s.raffinate.TP
  {
    && s.Valid() && s.chemicals == chemicals
    && s.raffinate.Mol() == Zeros(chemicals.Size()) && s.extract.Mol() == Zeros(chemicals.Size())
    && s.raffinate.T() == DefaultT && s.raffinate.P() == DefaultP
  }

  // ---------------------------------------------------------------------
  // The cascade
  // ---------------------------------------------------------------------

  /** Whether any entry of the extract flow rates is negative. */
  predicate HasNegative(rows: seq<seq<real>>)
  {
    exists k, j :: 0 <= k < |rows| && 0 <= j < |rows[k]| && rows[k][j] < 0.0
  }

  /** The extract flows after the first `m` stages had their entries at
      `index` overwritten by the rows of extract flow rates. */
  function WrittenExtracts(E: seq<seq<real>>, index: seq<nat>, rows: seq<seq<real>>, m: nat): (W: seq<seq<real>>)
    requires m <= |E| && m <= |rows|
    requires forall i :: 0 <= i < m ==> |rows[i]| == |index| && InRange(index, |E[i]|)
  {
    seq(|E|, i requires 0 <= i < |E| => if i < m then Assign(E[i], index, rows[i]) else E[i])
  }

  /** The first `k` entries of `A` followed by the entries of `B` past `k`. */
  function Overwritten<T>(A: seq<T>, B: seq<T>, k: nat): (C: seq<T>)
    requires k <= |A| && k <= |B|
    ensures |C| == |B| && forall i :: 0 <= i < |B| ==> C[i] == if i < k then A[i] else B[i]
  {
    seq(|B|, i requires 0 <= i < |B| => if i < k then A[i] else B[i])
  }

  /** Overwriting one more entry extends the overwritten prefix. */
  lemma OverwriteNext<T>(A: seq<T>, B: seq<T>, k: nat)
    requires k < |A| && k < |B|
    ensures Overwritten(A, B, k)[k := A[k]] == Overwritten(A, B, k + 1)
  {
  }

  /** Overwriting one more entry extends the overwritten prefix. */
  lemma OverwriteGrow<T>(A: seq<T>, B: seq<T>, x: T)
    requires |A| < |B|
    ensures Overwritten(A, B, |A|)[|A| := x] == Overwritten(A + [x], B, |A| + 1)
  {
  }

  /** The solvent entering each stage: the extract of the next stage, or
      the cascade's solvent at the last stage. */
  function SolventsIn(E: seq<seq<real>>, solvent: seq<real>): (S: seq<seq<real>>)
    ensures |S| == |E|
    ensures Rectangular(E, |solvent|) ==> Rectangular(S, |solvent|)
  {
    seq(|E|, i requires 0 <= i < |E| => if i + 1 < |E| then E[i + 1] else solvent)
  }

  /** The raffinates of the first `k` stages when they are balanced in
      order: stage `i` is fed by the feed (first stage) or by the raffinate
      just computed for stage `i - 1`, takes solvent `S[i]` and gives up
      extract `E[i]`. */
  function CascadeRaffinates(F: seq<real>, S: seq<seq<real>>, E: seq<seq<real>>, k: nat, n: nat): (R: seq<seq<real>>)
    requires |F| == n && Rectangular(S, n) && Rectangular(E, n)
    requires k <= |E| && k <= |S|
    ensures |R| == k && Rectangular(R, n)
    decreases k
  {
    if k == 0 then []
    else
      var R := CascadeRaffinates(F, S, E, k - 1, n);
      var inflow := if k == 1 then F else R[k - 2];
      R + [Sub(Add(inflow, S[k - 1]), E[k - 1])]
  }

  /** The current contents of `arrays`, in order. */
  ghost function Values(arrays: seq<array<real>>): (vs: seq<seq<real>>)
    reads arrays
    ensures |vs| == |arrays|
    ensures forall n :: Sized(arrays, n) ==> Rectangular(vs, n)
    decreases |arrays|
  {
    if |arrays| == 0 then []
    else
      var init := arrays[..|arrays| - 1];
      assert forall n :: Sized(arrays, n) ==> Sized(init, n);
      Values(init) + [arrays[|arrays| - 1][..]]
  }

  /** Every array has length `n`. */
  predicate Sized(arrays: seq<array<real>>, n: nat)
  {
    forall i :: 0 <= i < |arrays| ==> arrays[i].Length == n
  }

  /** Entry `i` of the contents is the contents of array `i`. */
  lemma {:induction false} ValuesAt(arrays: seq<array<real>>, i: nat)
    requires i < |arrays|
    ensures Values(arrays)[i] == arrays[i][..]
    decreases |arrays|
  {
    if i < |arrays| - 1 {
      ValuesAt(arrays[..|arrays| - 1], i);
    }
  }

  /** Every entry of the contents is the contents of its array. */
  lemma ValuesAll(arrays: seq<array<real>>)
    ensures forall i :: 0 <= i < |arrays| ==> Values(arrays)[i] == arrays[i][..]
  {
    forall i | 0 <= i < |arrays|
      ensures Values(arrays)[i] == arrays[i][..]
    {
      ValuesAt(arrays, i);
    }
  }

  /** Each extract array is at slot `i` of `slot` and each raffinate
      array at slot `-1 - i`, so no array appears twice among them. */
  predicate Slotted(extracts: seq<array<real>>, raffinates: seq<array<real>>, slot: map<array<real>, int>)
  {
    && (forall i :: 0 <= i < |extracts| ==> extracts[i] in slot && slot[extracts[i]] == i)
    && (forall i :: 0 <= i < |raffinates| ==> raffinates[i] in slot && slot[raffinates[i]] == -1 - i)
  }

  /** The multi-stage extraction: a counter-current cascade in which the
      raffinate of each stage feeds the next and the extract of each stage
      is the solvent of the previous one. `feed` and `solvent` name the
      streams the cascade was built with, and `extractArrays` and
      `raffinateArrays` the molar arrays of the stages' phases. */
  class MultiStageLLE {
    const stages: seq<StageLLE>
    /** The positions of the chemicals in equilibrium; None until the slot
        is assigned. */
    var index: Option<seq<nat>>
    const chemicals: Chemicals
    ghost const feed: Stream
    ghost const solvent: Stream
    ghost const extractArrays: seq<array<real>>
    ghost const raffinateArrays: seq<array<real>>
    /** Tells the arrays of the stages' phases apart. */
    ghost const slot: map<array<real>, int>
    /** The objects the invariant reads: the stages, their phases, the feed
        and the solvent, and the phases' indexers. */
    ghost const Repr: set<object>

    constructor FromStages(stages: seq<StageLLE>, chemicals: Chemicals, ghost feed: Stream, ghost solvent: Stream,
                           ghost extractArrays: seq<array<real>>, ghost raffinateArrays: seq<array<real>>,
                           ghost slot: map<array<real>, int>, ghost Repr: set<object>)
      requires Consistent(stages, chemicals, feed, solvent, extractArrays, raffinateArrays, slot, Repr)
      ensures Valid()
      ensures this.stages == stages && this.chemicals == chemicals && index == None
      ensures this.feed == feed && this.solvent == solvent
      ensures this.extractArrays == extractArrays && this.raffinateArrays == raffinateArrays && this.slot == slot
      ensures this.Repr == Repr
    {
      this.Repr := Repr;
      this.slot := slot;
      this.stages := stages;
      this.chemicals := chemicals;
      this.feed := feed;
      this.solvent := solvent;
      this.extractArrays := extractArrays;
      this.raffinateArrays := raffinateArrays;
      index := None;
    }

    /** No molar array of a stage's phase is among the objects the
        invariant reads. */
    ghost predicate ArraysOutside()
    {
      Outside(extractArrays, raffinateArrays, Repr)
    }

    ghost predicate Valid()
      reads this, Repr
    {
      && Consistent(stages, chemicals, feed, solvent, extractArrays, raffinateArrays, slot, Repr)
      && (index.Some? ==> InRange(index.value, chemicals.Size()))
    }

    /** The cascade's feed: the feed of its first stage, which is the
        stream it was built with. */
    function Feed(): (s: Stream?)
      requires Valid()
      reads this, Repr
      ensures s == feed
    {
      stages[0].feed
    }

    /** The cascade's solvent: the solvent of its last stage, which is the
        stream it was built with. */
    function Solvent(): (s: Stream?)
      requires Valid()
      reads this, Repr
      ensures s == solvent
    {
      stages[|stages| - 1].solvent
    }

    /** The cascade's extract leaves its first stage. */
    function Extract(): (s: Stream)
      requires Valid()
      reads this, Repr
      ensures s.imol.data == extractArrays[0]
    {
      stages[0].extract
    }

    /** The cascade's raffinate leaves its last stage. */
    function Raffinate(): (s: Stream)
      requires Valid()
      reads this, Repr
      ensures s.imol.data == raffinateArrays[|raffinateArrays| - 1]
    {
      stages[|stages| - 1].raffinate
    }

    /** `N` fresh, unwired stages at the default temperature and pressure,
        with the molar arrays of their phases. */
    static method NewStages(N: nat, chemicals: Chemicals)
      returns (stages: seq<StageLLE>, ghost extracts: seq<array<real>>, ghost raffinates: seq<array<real>>,
               ghost slot: map<array<real>, int>, ghost repr: set<object>, ghost ids: map<StageLLE, int>)
      requires chemicals.Valid()
      ensures |stages| == N && |extracts| == N && |raffinates| == N
      ensures Slotted(extracts, raffinates, slot) && forall a :: a in slot ==> fresh(a)
      ensures forall i :: 0 <= i < N ==> stages[i] in ids && ids[stages[i]] == i
      ensures forall i :: 0 <= i < N ==> fresh(stages[i]) && Built(stages[i], chemicals, extracts[i], raffinates[i], repr)
    {
      stages, extracts, raffinates, slot, repr, ids := [], [], [], map[], {}, map[];
      while |stages| < N
        invariant |stages| <= N && |extracts| == |stages| && |raffinates| == |stages|
        invariant Slotted(extracts, raffinates, slot) && forall a :: a in slot ==> fresh(a)
        invariant forall i :: 0 <= i < |stages| ==> stages[i] in ids && ids[stages[i]] == i
        invariant forall i :: 0 <= i < |stages| ==>
          fresh(stages[i]) && Built(stages[i], chemicals, extracts[i], raffinates[i], repr)
      {
        var s := new StageLLE(chemicals, DefaultT, DefaultP);
        stages := stages + [s];
        extracts := extracts + [s.extract.imol.data];
        raffinates := raffinates + [s.raffinate.imol.data];
        slot := slot[s.extract.imol.data := |stages| - 1][s.raffinate.imol.data := -|stages|];
        ids := ids[s := |stages| - 1];
        repr := repr + {s, s.raffinate, s.extract, s.raffinate.imol, s.extract.imol};
      }
    }

    /** Builds `N` fresh stages and wires them into a cascade between
        `feed` and `solvent`. With no stage there is no first stage to
        take the feed. */
    static method Create(N: nat, feed: Stream, solvent: Stream, chemicals: Chemicals)
      returns (r: Result<MultiStageLLE, Error>)
      requires chemicals.Valid() && feed.Valid() && solvent.Valid()
      requires feed.chemicals == chemicals && solvent.chemicals == chemicals
      ensures N == 0 ==> r == Failure(IndexError)
      ensures N > 0 ==>
        && r.Success? && fresh(r.value) && r.value.Valid()
        && |r.value.stages| == N && r.value.feed == feed && r.value.solvent == solvent
        && r.value.index == None && r.value.chemicals == chemicals
        && (forall i :: 0 <= i < N ==>
              && fresh(r.value.stages[i])
              && r.value.stages[i].raffinate.Mol() == Zeros(chemicals.Size())
              && r.value.stages[i].extract.Mol() == Zeros(chemicals.Size())
              && r.value.stages[i].raffinate.T() == DefaultT && r.value.stages[i].raffinate.P() == DefaultP)
    {
      var stages, extracts, raffinates, slot, repr, ids := NewStages(N, chemicals);
      if N == 0 {
        return Failure(IndexError);
      }
      Wire(stages, feed, solvent, ids);
      Assembled(stages, chemicals, feed, solvent, extracts, raffinates, slot, repr);
      var m := new MultiStageLLE.FromStages(stages, chemicals, feed, solvent, extracts, raffinates, slot,
                                            repr + {feed, solvent, feed.imol, solvent.imol});
      r := Success(m);
    }

    /** Writes each row of extract flow rates into the extract of the
        matching stage at `index`, then balances that stage's raffinate,
        stage after stage. Rows beyond the last stage (or stages beyond the
        last row) are left alone. A negative flow rate fails before
        anything is written; so does an unset `index`. */
    method UpdateWithoutSideDraws(rows: seq<seq<real>>) returns (r: Outcome<Error>)
      requires Valid()
      requires index.Some? ==> forall k :: 0 <= k < |rows| ==> |rows[k]| == |index.value|
      modifies extractArrays, raffinateArrays
      ensures Valid()
      ensures HasNegative(rows) ==> r == Fail(RuntimeError)
      ensures !HasNegative(rows) && index.None? ==> r == Fail(AttributeError)
      ensures r.Fail? ==>
        Values(extractArrays) == old(Values(extractArrays)) && Values(raffinateArrays) == old(Values(raffinateArrays))
      ensures !HasNegative(rows) && index.Some? ==>
        var m := if |stages| < |rows| then |stages| else |rows|;
        var E := WrittenExtracts(old(Values(extractArrays)), index.value, rows, m);
        && r == Pass
        && Values(extractArrays) == E
        && Values(raffinateArrays)
           == Overwritten(CascadeRaffinates(old(feed.Mol()), SolventsIn(old(Values(extractArrays)), old(solvent.Mol())),
                                            E, m, chemicals.Size()),
                          old(Values(raffinateArrays)), m)
    {
      if HasNegative(rows) {
        return Fail(RuntimeError);
      }
      if index.None? {
        return Fail(AttributeError);
      }
      AllReady(this);
      label Before:
      ApplyRows(index.value, rows, feed.imol.data, solvent.imol.data);
      ValidFramed@Before(this);
      r := Pass;
    }

    /** The loop of the update, once the checks have passed. */
    method ApplyRows(idx: seq<nat>, rows: seq<seq<real>>, ghost feedArray: array<real>, ghost solventArray: array<real>)
      requires |extractArrays| == |stages| && |raffinateArrays| == |stages|
      requires Slotted(extractArrays, raffinateArrays, slot) && feedArray !in slot && solventArray !in slot
      requires ArraysOutside()
      requires feedArray.Length == chemicals.Size() && solventArray.Length == chemicals.Size()
      requires Sized(extractArrays, chemicals.Size()) && Sized(raffinateArrays, chemicals.Size())
      requires forall j :: 0 <= j < |stages| ==> Ready(stages[j], j, feedArray, solventArray)
      requires InRange(idx, chemicals.Size())
      requires forall k :: 0 <= k < |rows| ==> |rows[k]| == |idx|
      modifies extractArrays, raffinateArrays
      ensures unchanged(Repr)
      ensures
        var m := if |stages| < |rows| then |stages| else |rows|;
        var E := WrittenExtracts(old(Values(extractArrays)), idx, rows, m);
        && Values(extractArrays) == E
        && Values(raffinateArrays)
           == Overwritten(CascadeRaffinates(old(feedArray[..]), SolventsIn(old(Values(extractArrays)), old(solventArray[..])),
                                            E, m, chemicals.Size()),
                          old(Values(raffinateArrays)), m)
    {
      var N := |stages|;
      var m := if N < |rows| then N else |rows|;
      ghost var E0 := Values(extractArrays);
      ghost var R0 := Values(raffinateArrays);
      ghost var F := feedArray[..];
      ghost var Sol := solventArray[..];
      ghost var E := WrittenExtracts(E0, idx, rows, m);
      ghost var S := SolventsIn(E0, Sol);
      Started(feedArray, solventArray, idx, rows, m);
      var k := 0;
      while k < m
        invariant 0 <= k <= m
        invariant unchanged(Repr)
        invariant Progress(k, feedArray, solventArray, F, Sol, E0, R0, E, S)
      {
        assert old(Ready(stages[k], k, feedArray, solventArray));
        UpdateStep(k, idx, rows[k], feedArray, solventArray, F, Sol, E0, R0, E, S);
        k := k + 1;
      }
      assert Overwritten(E, E0, m) == E;
    }

    /** The update loop's step: with the first `k` stages updated, updating
        stage `k` gives the state with the first `k + 1` updated. */
    method UpdateStep(k: nat, idx: seq<nat>, row: seq<real>, ghost feedArray: array<real>, ghost solventArray: array<real>,
                      ghost F: seq<real>, ghost Sol: seq<real>, ghost E0: seq<seq<real>>, ghost R0: seq<seq<real>>,
                      ghost E: seq<seq<real>>, ghost S: seq<seq<real>>)
      requires k < |stages| && |extractArrays| == |stages| && |raffinateArrays| == |stages|
      requires Slotted(extractArrays, raffinateArrays, slot) && feedArray !in slot && solventArray !in slot
      requires ArraysOutside()
      requires Ready(stages[k], k, feedArray, solventArray)
      requires InRange(idx, chemicals.Size()) && |row| == |idx|
      requires Progress(k, feedArray, solventArray, F, Sol, E0, R0, E, S)
      requires E[k] == Assign(E0[k], idx, row) && S == SolventsIn(E0, Sol)
      modifies extractArrays[k], raffinateArrays[k]
      ensures unchanged(Repr)
      ensures Progress(k + 1, feedArray, solventArray, F, Sol, E0, R0, E, S)
    {
      var stage := stages[k];
      ghost var Rk := CascadeRaffinates(F, S, E, k, chemicals.Size());
      Inflows(k, feedArray, solventArray, F, Sol, E0, R0, E, S);
      UpdateStage(stage, idx, row, k, extractArrays, raffinateArrays, slot, feedArray, solventArray);
      OverwriteNext(E, E0, k);
      OverwriteGrow(Rk, R0, Sub(Add(if k == 0 then F else Rk[k - 1], S[k]), E[k]));
    }

    /** The update midway: the first `k` extracts hold their rows (`E`),
        the first `k` raffinates are those of the cascade balanced in order,
        and the rest still hold what they held before (`E0`, `R0`). */
    ghost predicate Progress(k: nat, feedArray: array<real>, solventArray: array<real>,
                             F: seq<real>, Sol: seq<real>, E0: seq<seq<real>>, R0: seq<seq<real>>,
                             E: seq<seq<real>>, S: seq<seq<real>>)
      reads extractArrays, raffinateArrays, feedArray, solventArray
    {
      && k <= |stages| && |extractArrays| == |stages| && |raffinateArrays| == |stages|
      && |F| == chemicals.Size() && |Sol| == chemicals.Size()
      && |E0| == |stages| && |R0| == |stages| && |E| == |stages| && |S| == |stages|
      && Rectangular(E0, chemicals.Size()) && Rectangular(E, chemicals.Size()) && Rectangular(S, chemicals.Size())
      && feedArray[..] == F && solventArray[..] == Sol
      && Values(extractArrays) == Overwritten(E, E0, k)
      && Values(raffinateArrays) == Overwritten(CascadeRaffinates(F, S, E, k, chemicals.Size()), R0, k)
    }

    /** Before the first stage is updated, nothing is overwritten yet. */
    lemma Started(feedArray: array<real>, solventArray: array<real>, idx: seq<nat>, rows: seq<seq<real>>, m: nat)
      requires |extractArrays| == |stages| && |raffinateArrays| == |stages|
      requires feedArray.Length == chemicals.Size() && solventArray.Length == chemicals.Size()
      requires Sized(extractArrays, chemicals.Size()) && Sized(raffinateArrays, chemicals.Size())
      requires InRange(idx, chemicals.Size())
      requires m <= |stages| && m <= |rows| && forall k :: 0 <= k < m ==> |rows[k]| == |idx|
      ensures
        var E0 := Values(extractArrays);
        Progress(0, feedArray, solventArray, feedArray[..], solventArray[..], E0, Values(raffinateArrays),
                 WrittenExtracts(E0, idx, rows, m), SolventsIn(E0, solventArray[..]))
    {
      var E0 := Values(extractArrays);
      var R0 := Values(raffinateArrays);
      var E := WrittenExtracts(E0, idx, rows, m);
      assert Rectangular(E, chemicals.Size());
      assert Overwritten(E, E0, 0) == E0;
      assert Overwritten(CascadeRaffinates(feedArray[..], SolventsIn(E0, solventArray[..]), E, 0, chemicals.Size()), R0, 0) == R0;
    }

    /** Midway through the update, stage `k` still holds its old extract,
        and is fed by the raffinate just balanced upstream (or the feed)
        and by the old extract downstream (or the solvent). */
    lemma Inflows(k: nat, feedArray: array<real>, solventArray: array<real>,
                  F: seq<real>, Sol: seq<real>, E0: seq<seq<real>>, R0: seq<seq<real>>,
                  E: seq<seq<real>>, S: seq<seq<real>>)
      requires k < |stages| && |extractArrays| == |stages| && |raffinateArrays| == |stages|
      requires Ready(stages[k], k, feedArray, solventArray)
      requires |F| == chemicals.Size()
      requires |E0| == |stages| && |R0| == |stages| && |E| == |stages|
      requires Rectangular(E, chemicals.Size()) && Rectangular(S, chemicals.Size())
      requires S == SolventsIn(E0, Sol)
      requires feedArray[..] == F && solventArray[..] == Sol
      requires Values(extractArrays) == Overwritten(E, E0, k)
      requires Values(raffinateArrays) == Overwritten(CascadeRaffinates(F, S, E, k, chemicals.Size()), R0, k)
      ensures stages[k].feed.Mol() == if k == 0 then F else CascadeRaffinates(F, S, E, k, chemicals.Size())[k - 1]
      ensures stages[k].solvent.Mol() == S[k]
      ensures stages[k].extract.Mol() == E0[k]
    {
      ValuesAt(extractArrays, k);
      if k > 0 {
        ValuesAt(raffinateArrays, k - 1);
      }
      if k + 1 < |stages| {
        ValuesAt(extractArrays, k + 1);
      }
    }

    /** What stage `k` needs for its update: its phases are those with the
        `k`-th arrays, and its feed and solvent hold the arrays of the
        previous raffinate (or the feed) and of the next extract (or the
        solvent). */
    ghost predicate Ready(stage: StageLLE, k: nat, feedArray: array<real>, solventArray: array<real>)
      requires k < |extractArrays| && k < |raffinateArrays|
      reads Repr
    {
      && stage in Repr && stage.raffinate in Repr && stage.extract in Repr
      && stage.raffinate.imol in Repr && stage.extract.imol in Repr
      && stage.feed != null && stage.feed in Repr && stage.feed.imol in Repr
      && stage.solvent != null && stage.solvent in Repr && stage.solvent.imol in Repr
      && stage.Valid() && stage.chemicals.Size() == chemicals.Size()
      && stage.extract.imol.data == extractArrays[k] && stage.raffinate.imol.data == raffinateArrays[k]
      && stage.feed.imol.data == (if k == 0 then feedArray else if k - 1 < |raffinateArrays| then raffinateArrays[k - 1] else feedArray)
      && stage.solvent.imol.data == (if k + 1 < |extractArrays| then extractArrays[k + 1] else solventArray)
      && stage.feed.imol.data.Length == chemicals.Size() && stage.solvent.imol.data.Length == chemicals.Size()
    }
  }

  /** Each stage is fed by the previous stage's raffinate and takes the
      next stage's extract as solvent; the first stage takes the feed and
      the last stage the solvent. */
  ghost predicate Chained(stages: seq<StageLLE>, feed: Stream, solvent: Stream)
    reads stages
  {
    && |stages| > 0
    && stages[0].feed == feed
    && stages[|stages| - 1].solvent == solvent
    && (forall i :: 0 <= i < |stages| - 1 ==> stages[i + 1].feed == stages[i].raffinate)
    && (forall i :: 0 <= i < |stages| - 1 ==> stages[i].solvent == stages[i + 1].extract)
  }

  /** Wires the stages into a counter-current cascade between `feed` and
      `solvent`. */
  method Wire(stages: seq<StageLLE>, feed: Stream, solvent: Stream, ghost ids: map<StageLLE, int>)
    requires |stages| > 0
    requires forall i :: 0 <= i < |stages| ==> stages[i] in ids && ids[stages[i]] == i
    modifies stages
    ensures Chained(stages, feed, solvent)
  {
    var N := |stages|;
    var i := 0;
    while i < N - 1
      invariant 0 <= i <= N - 1
      invariant forall j :: 0 <= j < i ==> stages[j + 1].feed == stages[j].raffinate
      invariant forall j :: 0 <= j < i ==> stages[j].solvent == stages[j + 1].extract
    {
      stages[i + 1].feed := stages[i].raffinate;
      stages[i].solvent := stages[i + 1].extract;
      i := i + 1;
    }
    stages[0].feed := feed;
    stages[N - 1].solvent := solvent;
  }

  /** Every stage of a valid cascade is ready for its update. */
  lemma AllReady(m: MultiStageLLE)
    requires m.Valid()
    ensures forall k :: 0 <= k < |m.stages| ==> m.Ready(m.stages[k], k, m.feed.imol.data, m.solvent.imol.data)
  {
    forall k | 0 <= k < |m.stages|
      ensures m.Ready(m.stages[k], k, m.feed.imol.data, m.solvent.imol.data)
    {
      StageInputs(m, k);
    }
  }

  /** Stage `k` of a valid cascade is ready for its update. */
  lemma StageInputs(m: MultiStageLLE, k: nat)
    requires m.Valid() && k < |m.stages|
    ensures m.Ready(m.stages[k], k, m.feed.imol.data, m.solvent.imol.data)
  {
    var stage := m.stages[k];
    assert stage.Valid();
    if k > 0 {
      assert m.stages[k - 1].Valid();
    }
    if k + 1 < |m.stages| {
      assert m.stages[k + 1].Valid();
    }
  }

  /** The cascade's invariant reads no molar array, so writing flows
      keeps it. */
  twostate lemma ValidFramed(m: MultiStageLLE)
    requires old(m.Valid()) && old(allocated(m.Repr))
    requires unchanged(m, m.Repr)
    ensures m.Valid()
  {
  }

  /** One step of the update: the stage's extract flows at the positions
      `idx` are overwritten with `row`, then its raffinate is
      balanced against its feed and solvent. */
  method UpdateStage(stage: StageLLE, idx: seq<nat>, row: seq<real>,
                     ghost k: nat, ghost extracts: seq<array<real>>, ghost raffinates: seq<array<real>>,
                     ghost slot: map<array<real>, int>,
                     ghost feedArray: array<real>, ghost solventArray: array<real>)
    requires stage.Valid() && InRange(idx, stage.chemicals.Size()) && |row| == |idx|
    requires stage.feed != null && stage.feed.imol.data.Length == stage.chemicals.Size()
    requires stage.solvent != null && stage.solvent.imol.data.Length == stage.chemicals.Size()
    requires stage.feed.imol.data != stage.extract.imol.data && stage.solvent.imol.data != stage.extract.imol.data
    requires Slotted(extracts, raffinates, slot) && k < |extracts| && k < |raffinates|
    requires stage.extract.imol.data == extracts[k] && stage.raffinate.imol.data == raffinates[k]
    requires feedArray !in slot && solventArray !in slot
    modifies stage.extract.imol.data, stage.raffinate.imol.data
    ensures stage.extract.Mol() == Assign(old(stage.extract.Mol()), idx, row)
    ensures stage.raffinate.Mol() == Sub(Add(old(stage.feed.Mol()), old(stage.solvent.Mol())), stage.extract.Mol())
    ensures Values(extracts) == old(Values(extracts))[k := stage.extract.Mol()]
    ensures Values(raffinates) == old(Values(raffinates))[k := stage.raffinate.Mol()]
    ensures feedArray[..] == old(feedArray[..]) && solventArray[..] == old(solventArray[..])
  {
    ValuesAll(extracts);
    ValuesAll(raffinates);
    ghost var E0, R0 := Values(extracts), Values(raffinates);
    stage.extract.imol.SetItems(idx, row);
    var _ := stage.BalanceRaffinateFlows();
    ValuesAll(extracts);
    ValuesAll(raffinates);
    assert Values(extracts) == E0[k := stage.extract.Mol()] by {
      forall i | 0 <= i < |extracts|
        ensures Values(extracts)[i] == E0[k := stage.extract.Mol()][i]
      {
        assert i != k ==> slot[extracts[i]] != slot[raffinates[k]];
      }
    }
    assert Values(raffinates) == R0[k := stage.raffinate.Mol()] by {
      forall i | 0 <= i < |raffinates|
        ensures Values(raffinates)[i] == R0[k := stage.raffinate.Mol()][i]
      {
        assert i != k ==> slot[raffinates[i]] != slot[extracts[k]];
      }
    }
  }

  // ---------------------------------------------------------------------
  // Balances of the cascade
  // ---------------------------------------------------------------------

  /** Summed over the first `k` stages balanced in order, what leaves (the
      last raffinate and every extract) equals what enters (the feed and
      every solvent). */
  lemma {:induction false} CascadeBalance(F: seq<real>, S: seq<seq<real>>, E: seq<seq<real>>, k: nat, n: nat)
    requires |F| == n && Rectangular(S, n) && Rectangular(E, n)
    requires 0 < k <= |E| && k <= |S|
    ensures Add(CascadeRaffinates(F, S, E, k, n)[k - 1], VecSum(E[..k], n))
         == Add(F, VecSum(S[..k], n))
  {
    var R := CascadeRaffinates(F, S, E, k, n);
    assert E[..k][..k - 1] == E[..k - 1];
    assert S[..k][..k - 1] == S[..k - 1];
    if k == 1 {
      forall j | 0 <= j < n
        ensures Add(R[0], VecSum(E[..1], n))[j] == Add(F, VecSum(S[..1], n))[j]
      {
      }
    } else {
      CascadeBalance(F, S, E, k - 1, n);
      var P := CascadeRaffinates(F, S, E, k - 1, n);
      assert R[k - 1] == Sub(Add(P[k - 2], S[k - 1]), E[k - 1]);
      forall j | 0 <= j < n
        ensures Add(R[k - 1], VecSum(E[..k], n))[j] == Add(F, VecSum(S[..k], n))[j]
      {
        assert Add(P[k - 2], VecSum(E[..k - 1], n))[j] == Add(F, VecSum(S[..k - 1], n))[j];
      }
    }
  }

  /** Splitting off the first vector of a sum. */
  lemma {:induction false} VecSumFirst(vs: seq<seq<real>>, n: nat)
    requires Rectangular(vs, n) && |vs| > 0
    ensures VecSum(vs, n) == Add(vs[0], VecSum(vs[1..], n))
  {
    if |vs| == 1 {
      assert vs[1..] == [];
      forall j | 0 <= j < n
        ensures VecSum(vs, n)[j] == Add(vs[0], VecSum(vs[1..], n))[j]
      {
        assert vs[..0] == [];
      }
    } else {
      var k := |vs| - 1;
      VecSumFirst(vs[..k], n);
      assert vs[..k][1..] == vs[1..][..k - 1];
      assert vs[..k][0] == vs[0];
      assert vs[1..][k - 1] == vs[k];
      forall j | 0 <= j < n
        ensures VecSum(vs, n)[j] == Add(vs[0], VecSum(vs[1..], n))[j]
      {
      }
    }
  }

  /** When every stage has been balanced with the extract flows it already
      had, the cascade as a whole closes: the extract leaving the first
      stage plus the raffinate leaving the last stage equal the feed plus
      the solvent. */
  lemma CascadeCloses(F: seq<real>, Sol: seq<real>, E: seq<seq<real>>, n: nat)
    requires |F| == n && |Sol| == n && Rectangular(E, n) && |E| > 0
    ensures Add(CascadeRaffinates(F, SolventsIn(E, Sol), E, |E|, n)[|E| - 1], E[0]) == Add(F, Sol)
  {
    var N := |E|;
    var S := SolventsIn(E, Sol);
    var R := CascadeRaffinates(F, S, E, N, n);
    CascadeBalance(F, S, E, N, n);
    assert E[..N] == E && S[..N] == S;
    VecSumFirst(E, n);
    SolventsSum(E, Sol, n);
    CancelMiddle(R[N - 1], E[0], F, Sol, VecSum(E[1..], n));
  }

  /** The solvents entering the stages add up to the extracts of all
      stages but the first, plus the cascade's solvent. */
  lemma SolventsSum(E: seq<seq<real>>, Sol: seq<real>, n: nat)
    requires |Sol| == n && Rectangular(E, n) && |E| > 0
    ensures Rectangular(SolventsIn(E, Sol), n)
    ensures VecSum(SolventsIn(E, Sol), n) == Add(VecSum(E[1..], n), Sol)
  {
    var S := SolventsIn(E, Sol);
    assert S == E[1..] + [Sol];
    assert S[..|S| - 1] == E[1..];
  }

  lemma CancelMiddle(a: seq<real>, e: seq<real>, f: seq<real>, s: seq<real>, v: seq<real>)
    requires |a| == |e| == |f| == |s| == |v|
    requires Add(a, Add(e, v)) == Add(f, Add(v, s))
    ensures Add(a, e) == Add(f, s)
  {
    forall j | 0 <= j < |a|
      ensures Add(a, e)[j] == Add(f, s)[j]
    {
      assert Add(a, Add(e, v))[j] == Add(f, Add(v, s))[j];
    }
  }

  // ---------------------------------------------------------------------
  // The single-chemical system
  // ---------------------------------------------------------------------

  /** Entry `(i, j)` of the matrix of the single-chemical system, where
      `r[i]` is stage `i`'s ratio of raffinate to extract flow of that
      chemical (phase ratio times partition coefficient). */
  function SystemEntry(r: seq<real>, i: nat, j: nat): real
    requires i < |r| && j < |r|
  {
    if i == j then 1.0 + r[i]
    else if j == i + 1 then -1.0
    else if i == j + 1 then -r[j]
    else 0.0
  }

  function SystemRow(r: seq<real>, i: nat): (row: seq<real>)
    requires i < |r|
    ensures |row| == |r|
  {
    seq(|r|, j requires 0 <= j < |r| => SystemEntry(r, i, j))
  }

  /** The right-hand side: the feed enters the first stage and the solvent
      the last. */
  function SystemRhs(N: nat, feed: real, solvent: real): (b: seq<real>)
    ensures |b| == N
    ensures N == 1 ==> b == [feed + solvent]
    ensures N > 1 ==> b[0] == feed && b[N - 1] == solvent
    ensures forall i :: 0 < i < N - 1 ==> b[i] == 0.0
  {
    seq(N, i => (if i == 0 then feed else 0.0) + (if i == N - 1 then solvent else 0.0))
  }

  /** The matrix while its off-diagonal entries are filled: those of the
      first `k` rows (above) and columns (below) are set. */
  ghost function Filled(r: seq<real>, k: nat, i: nat, j: nat): real
    requires i < |r| && j < |r|
  {
    if i == j then 1.0 + r[i]
    else if j == i + 1 && i < k then -1.0
    else if i == j + 1 && j < k then -r[j]
    else 0.0
  }

  /** Builds the system whose solution is one chemical's extract flow by
      stage. With no stage, the right-hand side has no first entry to take
      the feed. */
  method AssembleSystem(N: nat, phaseRatios: seq<real>, K: seq<real>, feed: real, solvent: real)
    returns (res: Result<(array2<real>, array<real>), Error>)
    requires |phaseRatios| == N && |K| == N
    ensures N == 0 ==> res == Failure(IndexError)
    ensures N > 0 ==>
      && res.Success? && fresh(res.value.0) && fresh(res.value.1)
      && res.value.0.Length0 == N && res.value.0.Length1 == N && res.value.1.Length == N
      && (forall i, j :: 0 <= i < N && 0 <= j < N ==> res.value.0[i, j] == SystemEntry(Mul(phaseRatios, K), i, j))
      && res.value.1[..] == SystemRhs(N, feed, solvent)
  {
    var r := Mul(phaseRatios, K);
    var A := new real[N, N]((i, j) requires 0 <= i < N && 0 <= j < N =>
                              (if i == j then 1.0 else 0.0) * (1.0 + r[j]));
    var i := 0;
    while i + 1 < N
      invariant 0 <= i && (N > 0 ==> i <= N - 1)
      invariant forall p, q :: 0 <= p < N && 0 <= q < N ==> A[p, q] == Filled(r, i, p, q)
    {
      A[i, i + 1] := -1.0;
      A[i + 1, i] := -r[i];
      i := i + 1;
    }
    var b := new real[N](j => 0.0);
    if N == 0 {
      return Failure(IndexError);
    }
    b[0] := feed;
    b[N - 1] := b[N - 1] + solvent;
    assert b[..] == SystemRhs(N, feed, solvent) by {
      forall j | 0 <= j < N
        ensures b[j] == SystemRhs(N, feed, solvent)[j]
      {
      }
    }
    res := Success((A, b));
  }

  /** Row `i` of the system applied to `E`, over its first `k` columns. */
  function RowUpTo(r: seq<real>, E: seq<real>, i: nat, k: nat): real
    requires |E| == |r| && i < |r| && k <= |r|
  {
    (if i < k then (1.0 + r[i]) * E[i] else 0.0)
    - (if i + 1 < k then E[i + 1] else 0.0)
    - (if 0 < i && i - 1 < k then r[i - 1] * E[i - 1] else 0.0)
  }

  lemma {:induction false} RowPrefix(r: seq<real>, E: seq<real>, i: nat, k: nat)
    requires |E| == |r| && i < |r| && k <= |r|
    ensures SumPrefix(Mul(SystemRow(r, i), E)[..k]) == RowUpTo(r, E, i, k)
  {
    var t := Mul(SystemRow(r, i), E);
    if k > 0 {
      RowPrefix(r, E, i, k - 1);
      assert t[..k][..k - 1] == t[..k - 1];
      var j := k - 1;
      assert t[j] == SystemEntry(r, i, j) * E[j];
      if j + 1 == i {
        assert t[j] == -(r[j] * E[j]);
      }
    }
  }

  /** Row `i` of the system touches only stage `i` and its neighbours. */
  lemma SystemRowTimes(r: seq<real>, E: seq<real>, i: nat)
    requires |E| == |r| && i < |r|
    ensures Dot(SystemRow(r, i), E) ==
      (1.0 + r[i]) * E[i]
      - (if i + 1 < |r| then E[i + 1] else 0.0)
      - (if 0 < i then r[i - 1] * E[i - 1] else 0.0)
  {
    var t := Mul(SystemRow(r, i), E);
    RowPrefix(r, E, i, |r|);
    assert t[..|r|] == t;
  }

  /** Stage `i` balances when the raffinate `r[i] * E[i]` and the extract
      `E[i]` leaving it equal what enters it: the feed or the previous
      stage's raffinate, and the solvent or the next stage's extract. */
  predicate StageBalanced(r: seq<real>, E: seq<real>, feed: real, solvent: real, i: nat)
    requires |E| == |r| && i < |r|
  {
    r[i] * E[i] + E[i] ==
      (if i == 0 then feed else r[i - 1] * E[i - 1])
      + (if i + 1 < |r| then E[i + 1] else solvent)
  }

  /** `E` solves the assembled system exactly when every stage balances. */
  lemma SystemIffStagesBalance(r: seq<real>, E: seq<real>, feed: real, solvent: real)
    requires |E| == |r|
    ensures (forall i :: 0 <= i < |r| ==> Dot(SystemRow(r, i), E) == SystemRhs(|r|, feed, solvent)[i])
        <==> (forall i :: 0 <= i < |r| ==> StageBalanced(r, E, feed, solvent, i))
  {
    forall i | 0 <= i < |r|
      ensures Dot(SystemRow(r, i), E) == SystemRhs(|r|, feed, solvent)[i] <==> StageBalanced(r, E, feed, solvent, i)
    {
      SystemRowTimes(r, E, i);
      assert (1.0 + r[i]) * E[i] == r[i] * E[i] + E[i];
    }
  }

  /** Over the first `k` balanced stages, the raffinate leaving stage
      `k - 1` and the extract leaving the first stage equal the feed and
      what enters stage `k - 1` as solvent. */
  lemma {:induction false} StagesTelescope(r: seq<real>, E: seq<real>, feed: real, solvent: real, k: nat)
    requires |E| == |r| && 0 < k <= |r|
    requires forall i :: 0 <= i < k ==> StageBalanced(r, E, feed, solvent, i)
    ensures r[k - 1] * E[k - 1] + E[0] == feed + (if k < |r| then E[k] else solvent)
  {
    assert StageBalanced(r, E, feed, solvent, k - 1);
    if k > 1 {
      StagesTelescope(r, E, feed, solvent, k - 1);
    }
  }

  /** A solution of the system conserves the chemical over the whole
      cascade: the extract leaving the first stage plus the raffinate
      leaving the last equal the feed plus the solvent. */
  lemma SystemSolutionConserves(r: seq<real>, E: seq<real>, feed: real, solvent: real)
    requires |E| == |r| && |r| > 0
    requires forall i :: 0 <= i < |r| ==> Dot(SystemRow(r, i), E) == SystemRhs(|r|, feed, solvent)[i]
    ensures E[0] + r[|r| - 1] * E[|r| - 1] == feed + solvent
  {
    SystemIffStagesBalance(r, E, feed, solvent);
    StagesTelescope(r, E, feed, solvent, |r|);
  }
}
