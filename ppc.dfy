/** Phase-phase coupling (PPC): the per-connection kernel, the fan-out over connections
    and the process object that stores the most recent result. */
module PpcKernel {
  import opened Common
  import opened FreqIndex

  /** One FFT coefficient. */
  datatype Complex = Complex(re: real, im: real)

  /** One entry of a coupling grid: NaN, or a coupling value. */
  datatype Cell = NaN | Val(v: real)

  /** FFT coefficients indexed [epoch][channel][frequency]. */
  type Fft = seq<seq<seq<Complex>>>

  /** One connection's coupling grid, indexed [f2][f1]. */
  type Grid = seq<seq<Cell>>

  /** The PPC value of one cell, computed from the seed's coefficients at f1 and the
      target's coefficients at f2 over all epochs, and from f1 and f2 themselves. The
      floating-point complex arithmetic of the source is not modelled: every property
      below holds for every such function. */
  type CellValue = (seq<Complex>, seq<Complex>, real, real) -> real

  /** Every epoch holds `nChannels` channels of `nFreqs` coefficients each. */
  predicate Shaped(data: Fft, nChannels: nat, nFreqs: nat) {
    forall e :: 0 <= e < |data| ==>
      |data[e]| == nChannels && forall c :: 0 <= c < nChannels ==> |data[e][c]| == nFreqs
  }

  /** `data[:, channel, freqIndex]`: one coefficient per epoch. */
  function Column(data: Fft, nChannels: nat, nFreqs: nat, channel: nat, freqIndex: nat): (r: seq<Complex>)
    requires Shaped(data, nChannels, nFreqs) && channel < nChannels && freqIndex < nFreqs
    ensures |r| == |data|
    ensures forall e :: 0 <= e < |data| ==> r[e] == data[e][channel][freqIndex]
  {
    seq(|data|, e requires 0 <= e < |data| => data[e][channel][freqIndex])
  }

  /** The keyword arguments of one kernel call: the connection's data
      [epochs][seed, target][frequencies], the frequency axis and the two query grids. */
  datatype KernelArgs = KernelArgs(data: Fft, freqs: seq<real>, f1s: seq<real>, f2s: seq<real>)

  predicate WellShaped(a: KernelArgs) {
    Shaped(a.data, 2, |a.freqs|)
  }

  /** Cell [i, j] needs no lookup (f1 >= f2), or both of its lookups succeed. */
  predicate PairOk(a: KernelArgs, i: nat, j: nat)
    requires i < |a.f2s| && j < |a.f1s|
  {
    a.f1s[j] < a.f2s[i] ==> a.f1s[j] in a.freqs && a.f2s[i] in a.freqs
  }

  /** Some cell with f1 < f2 asks for a frequency that is not on the axis. */
  predicate LookupFails(a: KernelArgs) {
    exists i, j :: 0 <= i < |a.f2s| && 0 <= j < |a.f1s| && !PairOk(a, i, j)
  }

  /** The seed's coefficients (channel 0) at the first position of `f1` on the axis. */
  function SeedColumn(a: KernelArgs, f1: real): (r: seq<Complex>)
    requires WellShaped(a) && f1 in a.freqs
    ensures |r| == |a.data|
  {
    Column(a.data, 2, |a.freqs|, 0, FindFirst(a.freqs, f1).value)
  }

  /** The target's coefficients (channel 1) at the first position of `f2` on the axis. */
  function TargetColumn(a: KernelArgs, f2: real): (r: seq<Complex>)
    requires WellShaped(a) && f2 in a.freqs
    ensures |r| == |a.data|
  {
    Column(a.data, 2, |a.freqs|, 1, FindFirst(a.freqs, f2).value)
  }

  /** The value the kernel leaves in cell [i, j]. */
  function KernelCell(a: KernelArgs, ppcValue: CellValue, i: nat, j: nat): Cell
    requires WellShaped(a) && i < |a.f2s| && j < |a.f1s| && PairOk(a, i, j)
  {
    var f1, f2 := a.f1s[j], a.f2s[i];
    if f1 < f2 then Val(ppcValue(SeedColumn(a, f1), TargetColumn(a, f2), f1, f2)) else NaN
  }

  /** The grid one kernel call returns when no lookup fails. */
  function KernelGrid(a: KernelArgs, ppcValue: CellValue): (g: Grid)
    requires WellShaped(a) && !LookupFails(a)
    ensures |g| == |a.f2s|
    ensures forall i :: 0 <= i < |g| ==> |g[i]| == |a.f1s|
    ensures forall i, j :: 0 <= i < |a.f2s| && 0 <= j < |a.f1s| ==>
              (g[i][j].NaN? <==> a.f2s[i] <= a.f1s[j])
    ensures forall i, j :: 0 <= i < |a.f2s| && 0 <= j < |a.f1s| && a.f1s[j] < a.f2s[i] ==>
              PairOk(a, i, j) &&
              g[i][j] == Val(ppcValue(SeedColumn(a, a.f1s[j]), TargetColumn(a, a.f2s[i]), a.f1s[j], a.f2s[i]))
  {
    seq(|a.f2s|, i requires 0 <= i < |a.f2s| =>
      seq(|a.f1s|, j requires 0 <= j < |a.f1s| => KernelCell(a, ppcValue, i, j)))
  }

  /** `_compute_ppc`: allocates a [len(f2s) x len(f1s)] grid of NaN and fills, in place,
      every cell whose f1 is below its f2. A frequency missing from the axis aborts the call. */
  method ComputeConnection(a: KernelArgs, ppcValue: CellValue) returns (r: Result<array2<Cell>>)
    requires WellShaped(a)
    ensures r.Success? <==> !LookupFails(a)
    ensures r.Failure? ==> r.error.NotFound? && r.error.value !in a.freqs
    ensures r.Failure? ==> r.error.value in a.f1s || r.error.value in a.f2s
    ensures r.Success? ==> fresh(r.value)
    ensures r.Success? ==> r.value.Length0 == |a.f2s| && r.value.Length1 == |a.f1s|
    ensures r.Success? ==> forall i, j :: 0 <= i < |a.f2s| && 0 <= j < |a.f1s| ==>
              r.value[i, j] == KernelGrid(a, ppcValue)[i][j]
  {
    var results := new Cell[|a.f2s|, |a.f1s|]((i, j) => NaN);
    for j := 0 to |a.f1s|
      invariant forall i', j' :: 0 <= i' < |a.f2s| && 0 <= j' < j ==> PairOk(a, i', j')
      invariant forall i', j' :: 0 <= i' < |a.f2s| && 0 <= j' < |a.f1s| ==>
                  results[i', j'] == if j' < j then KernelCell(a, ppcValue, i', j') else NaN
    {
      for i := 0 to |a.f2s|
        invariant forall i', j' :: 0 <= i' < |a.f2s| && 0 <= j' < |a.f1s| && (j' < j || (j' == j && i' < i)) ==>
                    PairOk(a, i', j')
        invariant forall i', j' :: 0 <= i' < |a.f2s| && 0 <= j' < |a.f1s| ==>
                    results[i', j'] ==
                      if j' < j || (j' == j && i' < i) then KernelCell(a, ppcValue, i', j') else NaN
      {
        var f1, f2 := a.f1s[j], a.f2s[i];
        if f1 < f2 {
          var seedIndex := FindFirst(a.freqs, f1);
          if seedIndex.None? {
            assert !PairOk(a, i, j);
            return Failure(NotFound(f1));
          }
          var targetIndex := FindFirst(a.freqs, f2);
          if targetIndex.None? {
            assert !PairOk(a, i, j);
            return Failure(NotFound(f2));
          }
          var seed := Column(a.data, 2, |a.freqs|, 0, seedIndex.value);
          var target := Column(a.data, 2, |a.freqs|, 1, targetIndex.value);
          results[i, j] := Val(ppcValue(seed, target, f1, f2));
        }
      }
    }
    return Success(results);
  }

  /** The values held by a two-dimensional array, row by row. */
  function GridValue(g: array2<Cell>): (r: Grid)
    reads g
    ensures |r| == g.Length0
    ensures forall i :: 0 <= i < |r| ==> |r[i]| == g.Length1
    ensures forall i, j :: 0 <= i < g.Length0 && 0 <= j < g.Length1 ==> r[i][j] == g[i, j]
  {
    seq(g.Length0, i requires 0 <= i < g.Length0 reads g =>
      seq(g.Length1, j requires 0 <= j < g.Length1 reads g => g[i, j]))
  }

  /** The channel pair of one connection: `data[:, (seed, target)]`. */
  function ConnectionSlice(data: Fft, nChannels: nat, seed: nat, target: nat): (r: Fft)
    requires seed < nChannels && target < nChannels
    requires forall e :: 0 <= e < |data| ==> |data[e]| == nChannels
    ensures |r| == |data|
    ensures forall e :: 0 <= e < |r| ==> r[e] == [data[e][seed], data[e][target]]
  {
    seq(|data|, e requires 0 <= e < |data| => [data[e][seed], data[e][target]])
  }

  /** Seed and target channel indices of the connections, in order. */
  datatype Connections = Connections(seeds: seq<nat>, targets: seq<nat>)

  /** Every zipped (seed, target) pair names a channel of the data. */
  predicate InRange(c: Connections, nChannels: nat) {
    forall k :: 0 <= k < Min(|c.seeds|, |c.targets|) ==> c.seeds[k] < nChannels && c.targets[k] < nChannels
  }

  /** The argument list of `PPC._compute_ppc`: one record per zipped (seed, target) pair. */
  function ConnectionArgs(data: Fft, nChannels: nat, freqs: seq<real>, f1: seq<real>, f2: seq<real>, c: Connections)
    : (r: seq<KernelArgs>)
    requires Shaped(data, nChannels, |freqs|) && InRange(c, nChannels)
    ensures |r| == Min(|c.seeds|, |c.targets|)
    ensures forall k :: 0 <= k < |r| ==> WellShaped(r[k])
    ensures forall k :: 0 <= k < |r| ==> r[k].freqs == freqs && r[k].f1s == f1 && r[k].f2s == f2
    ensures forall k :: 0 <= k < |r| ==> |r[k].data| == |data|
    ensures forall k, e :: 0 <= k < |r| && 0 <= e < |data| ==>
              r[k].data[e] == [data[e][c.seeds[k]], data[e][c.targets[k]]]
  {
    seq(Min(|c.seeds|, |c.targets|), k requires 0 <= k < Min(|c.seeds|, |c.targets|) =>
      KernelArgs(ConnectionSlice(data, nChannels, c.seeds[k], c.targets[k]), freqs, f1, f2))
  }

  /** The stacked grids of all connections, or None when a lookup fails. */
  function Stacked(args: seq<KernelArgs>, ppcValue: CellValue): (r: Option<seq<Grid>>)
    requires forall k :: 0 <= k < |args| ==> WellShaped(args[k])
    ensures r.Some? <==> forall k :: 0 <= k < |args| ==> !LookupFails(args[k])
    ensures r.Some? ==> |r.value| == |args|
    ensures r.Some? ==> forall k :: 0 <= k < |args| ==> r.value[k] == KernelGrid(args[k], ppcValue)
  {
    if forall k :: 0 <= k < |args| ==> !LookupFails(args[k]) then
      Some(seq(|args|, k requires 0 <= k < |args| => KernelGrid(args[k], ppcValue)))
    else
      None
  }

  /** The process-pool fan-out, as an order-preserving sequential map of the kernel over
      the argument records: grid k comes from record k, whatever the completion order. */
  method Dispatch(args: seq<KernelArgs>, ppcValue: CellValue) returns (r: Result<seq<Grid>>)
    requires forall k :: 0 <= k < |args| ==> WellShaped(args[k])
    ensures r.Success? <==> forall k :: 0 <= k < |args| ==> !LookupFails(args[k])
    ensures r.Success? ==> |r.value| == |args|
    ensures r.Success? ==> forall k :: 0 <= k < |args| ==> r.value[k] == KernelGrid(args[k], ppcValue)
    ensures r.Failure? ==> r.error.NotFound?
  {
    var grids: seq<Grid> := [];
    for k := 0 to |args|
      invariant |grids| == k
      invariant forall m :: 0 <= m < k ==> !LookupFails(args[m])
      invariant forall m :: 0 <= m < k ==> grids[m] == KernelGrid(args[m], ppcValue)
    {
      var g := ComputeConnection(args[k], ppcValue);
      if g.Failure? {
        return Failure(g.error);
      }
      var values := GridValue(g.value);
      GridsEqual(values, KernelGrid(args[k], ppcValue));
      grids := grids + [values];
    }
    return Success(grids);
  }

  /** Two grids of the same shape that agree cell by cell are equal. */
  lemma GridsEqual(g: Grid, h: Grid)
    requires |g| == |h|
    requires forall i :: 0 <= i < |g| ==> |g[i]| == |h[i]|
    requires forall i, j :: 0 <= i < |g| && 0 <= j < |g[i]| ==> g[i][j] == h[i][j]
    ensures g == h
  {
    forall i | 0 <= i < |g| ensures g[i] == h[i] {
      assert |g[i]| == |h[i]|;
    }
  }

  /** The result container: the stacked grids, the connections and the two frequency
      arguments in the order they were passed, and the metric's name. */
  datatype Results = Results(values: seq<Grid>, indices: Connections, rowFreqs: seq<real>, colFreqs: seq<real>, name: string)

  /** What `_sort_indices` and `_sort_freqs` leave behind on success (their source is not
      part of this model). */
  datatype Selection = Selection(indices: Connections, f1: seq<real>, f2: seq<real>)

  /** Every f1 below some f2, and every f2 above some f1, occurs on the frequency axis. */
  predicate Resolvable(freqs: seq<real>, f1: seq<real>, f2: seq<real>) {
    forall i, j :: 0 <= i < |f2| && 0 <= j < |f1| && f1[j] < f2[i] ==> f1[j] in freqs && f2[i] in freqs
  }

  /** A lookup fails for some connection of `args` exactly when the shared frequency
      arguments are not resolvable. */
  lemma LookupFailsIff(args: seq<KernelArgs>, freqs: seq<real>, f1: seq<real>, f2: seq<real>)
    requires forall k :: 0 <= k < |args| ==> args[k].freqs == freqs && args[k].f1s == f1 && args[k].f2s == f2
    ensures |args| > 0 ==> ((forall k :: 0 <= k < |args| ==> !LookupFails(args[k])) <==> Resolvable(freqs, f1, f2))
  {
    if |args| > 0 && !Resolvable(freqs, f1, f2) {
      var i, j :| 0 <= i < |f2| && 0 <= j < |f1| && f1[j] < f2[i] && !(f1[j] in freqs && f2[i] in freqs);
      assert !PairOk(args[0], i, j);
    }
  }

  /** The result one successful `compute` stores, as a reference definition. */
  function ExpectedResults(data: Fft, nChannels: nat, freqs: seq<real>, s: Selection, ppcValue: CellValue)
    : (r: Option<Results>)
    requires Shaped(data, nChannels, |freqs|) && InRange(s.indices, nChannels)
    ensures Min(|s.indices.seeds|, |s.indices.targets|) == 0 ==> r.Some?
    ensures Min(|s.indices.seeds|, |s.indices.targets|) > 0 ==> (r.Some? <==> Resolvable(freqs, s.f1, s.f2))
    ensures r.Some? ==> r.value.name == "PPC" && r.value.indices == s.indices
    ensures r.Some? ==> r.value.rowFreqs == s.f2 && r.value.colFreqs == s.f1
    ensures r.Some? ==> |r.value.values| == Min(|s.indices.seeds|, |s.indices.targets|)
    ensures r.Some? ==> forall k, i, j :: 0 <= k < |r.value.values| && 0 <= i < |s.f2| && 0 <= j < |s.f1| ==>
              |r.value.values[k]| == |s.f2| && |r.value.values[k][i]| == |s.f1| &&
              (r.value.values[k][i][j].NaN? <==> r.value.rowFreqs[i] <= r.value.colFreqs[j])
  {
    var args := ConnectionArgs(data, nChannels, freqs, s.f1, s.f2, s.indices);
    LookupFailsIff(args, freqs, s.f1, s.f2);
    match Stacked(args, ppcValue)
    case None => None
    case Some(grids) => Some(Results(grids, s.indices, s.f2, s.f1, "PPC"))
  }

  /** The connection pairs of a zip are all-or-nothing: they share the frequency grids,
      so either every connection's lookups succeed or none does. */
  lemma {:induction false} FailuresShared(data: Fft, nChannels: nat, freqs: seq<real>, s: Selection, k: nat, m: nat)
    requires Shaped(data, nChannels, |freqs|) && InRange(s.indices, nChannels)
    requires k < Min(|s.indices.seeds|, |s.indices.targets|) && m < Min(|s.indices.seeds|, |s.indices.targets|)
    ensures var args := ConnectionArgs(data, nChannels, freqs, s.f1, s.f2, s.indices);
            LookupFails(args[k]) <==> LookupFails(args[m])
  {
    var args := ConnectionArgs(data, nChannels, freqs, s.f1, s.f2, s.indices);
    if LookupFails(args[k]) {
      var i, j :| 0 <= i < |args[k].f2s| && 0 <= j < |args[k].f1s| && !PairOk(args[k], i, j);
      assert !PairOk(args[m], i, j);
    }
    if LookupFails(args[m]) {
      var i, j :| 0 <= i < |args[m].f2s| && 0 <= j < |args[m].f1s| && !PairOk(args[m], i, j);
      assert !PairOk(args[k], i, j);
    }
  }

  /** The `PPC` process object. */
  class Ppc {
    const data: Fft
    const freqs: seq<real>
    const nChannels: nat
    var indices: Connections
    var f1: seq<real>
    var f2: seq<real>
    var ppc: Option<seq<Grid>>
    var results: Option<Results>

    ghost predicate Valid()
      reads this
    {
      Shaped(data, nChannels, |freqs|) && InRange(indices, nChannels)
    }

    constructor (data: Fft, freqs: seq<real>, nChannels: nat)
      requires Shaped(data, nChannels, |freqs|)
      ensures Valid()
      ensures this.data == data && this.freqs == freqs && this.nChannels == nChannels
      ensures ppc == None && results == None
    {
      this.data := data;
      this.freqs := freqs;
      this.nChannels := nChannels;
      indices := Connections([], []);
      f1, f2 := [], [];
      ppc, results := None, None;
    }

    /** `_reset_attrs`: clears the stored grids (the base class's own reset is not part of
        this model). */
    method ResetAttrs()
      modifies this`ppc
      ensures ppc == None
    {
      ppc := None;
    }

    /** `PPC._compute_ppc`: builds the argument records and stacks the dispatched grids. */
    method ComputePpc(ppcValue: CellValue) returns (err: Option<Error>)
      requires Valid()
      modifies this`ppc
      ensures var args := ConnectionArgs(data, nChannels, freqs, f1, f2, indices);
              (err.None? <==> Stacked(args, ppcValue).Some?) &&
              (err.None? ==> ppc == Stacked(args, ppcValue)) &&
              (err.Some? ==> ppc == old(ppc))
    {
      var args := ConnectionArgs(data, nChannels, freqs, f1, f2, indices);
      var r := Dispatch(args, ppcValue);
      if r.Failure? {
        return Some(r.error);
      }
      assert r.value == Stacked(args, ppcValue).value;
      ppc := Some(r.value);
      return None;
    }

    /** `_store_results`: replaces the stored result; the frequencies go in as (f2, f1). */
    method StoreResults()
      requires ppc.Some?
      modifies this`results
      ensures results == Some(Results(ppc.value, indices, f2, f1, "PPC"))
    {
      results := Some(Results(ppc.value, indices, f2, f1, "PPC"));
    }

    /** `compute`: resets, takes the outcome of input sorting, computes and stores.
        The stored grids are cleared before the outcome of sorting is looked at. */
    method Compute(selection: Result<Selection>, ppcValue: CellValue) returns (err: Option<Error>)
      requires Valid()
      requires selection.Success? ==> InRange(selection.value.indices, nChannels)
      modifies this
      ensures Valid()
      ensures selection.Failure? ==>
                err == Some(selection.error) && ppc == None && results == old(results) &&
                indices == old(indices) && f1 == old(f1) && f2 == old(f2)
      ensures selection.Success? ==>
                indices == selection.value.indices && f1 == selection.value.f1 && f2 == selection.value.f2
      ensures selection.Success? ==>
                var expected := ExpectedResults(data, nChannels, freqs, selection.value, ppcValue);
                (err.None? <==> expected.Some?) &&
                (err.None? ==> results == expected && ppc == Some(expected.value.values)) &&
                (err.Some? ==> ppc == None && results == old(results))
    {
      ResetAttrs();
      if selection.Failure? {
        return Some(selection.error);
      }
      indices, f1, f2 := selection.value.indices, selection.value.f1, selection.value.f2;
      err := ComputePpc(ppcValue);
      if err.Some? {
        return;
      }
      StoreResults();
    }
  }
}
