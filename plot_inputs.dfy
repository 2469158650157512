/** Validation and normalisation of the inputs of the result-plotting classes. */
module PlotInputs {
  import opened Common
  import opened FreqIndex

  // Exception messages of the modelled checks (a `Tail` follows the offending argument's name).
  const NodesTypeMsg: string := "`nodes` must be a list of integers."
  const NodeMissingMsg: string := "The requested node is not present in the results."
  const GridTypeMsg: string := "`n_rows` and `n_cols` must be integers."
  const GridValueMsg: string := "`n_rows` and `n_cols` must be >= 1."
  const TicksTypeMsg: string := "`major_tick_intervals` and `minor_tick_intervals` should be ints or floats."
  const TicksOrderMsg: string := "`major_tick_intervals` should be > `minor_tick_intervals`."
  const FreqsTypeMsg: string := "`f1s` and `f2s` must be NumPy arrays."
  const FreqsDimMsg: string := "`f1s` and `f2s` must be 1D arrays."
  const FreqsMissingMsg: string := "Entries of `f1s` and `f2s` must be present in the results."
  const NoLenMsg: string := "object has no len()"
  const LimitLengthTail: string := "` must have length of 2."
  const CbarTypeTail: string := "` must be a list, tuple, or None."
  const CbarCountTail: string := "` is a tuple, one entry must be provided for each node being plotted."
  const TimesTypeMsg: string := "`times` must be a list of float."
  const TimesLengthMsg: string := "`times` must have a length of two."
  const OperandMsg: string := "unsupported operand type(s) for -"
  const EmptyArgminMsg: string := "attempt to get argmin of an empty sequence"
  const CbarRangeName: string := "cbar_range"

  /** The Python values a caller may pass to the plotting methods. */
  datatype Value =
    | NoneV
    | BoolV(b: bool)
    | IntV(i: int)
    | FloatV(x: real)
    | ListV(items: seq<Value>)
    | TupleV(items: seq<Value>)
      /** A NumPy array of floats: its shape, and its entries when it is one-dimensional. */
    | ArrayV(shape: seq<nat>, elems: seq<real>)
      /** Any other object; `size` is what `len()` gives for it, None when it has no length. */
    | ObjectV(size: Option<nat>)

  /** `isinstance(v, int)`; `bool` is a subclass of `int` in Python. */
  predicate IsInt(v: Value) {
    v.IntV? || v.BoolV?
  }

  function AsInt(v: Value): int
    requires IsInt(v)
  {
    if v.IntV? then v.i else if v.b then 1 else 0
  }

  /** `isinstance(v, (int, float))`. */
  predicate IsNumber(v: Value) {
    IsInt(v) || v.FloatV?
  }

  function AsReal(v: Value): real
    requires IsNumber(v)
  {
    if v.FloatV? then v.x else AsInt(v) as real
  }

  /** `len(v)`, or None where `len` raises TypeError. */
  function Len(v: Value): Option<nat> {
    match v
    case ListV(items) => Some(|items|)
    case TupleV(items) => Some(|items|)
    case ArrayV(shape, _) => if |shape| == 0 then None else Some(shape[0])
    case ObjectV(size) => size
    case _ => None
  }

  /** `[0, 1, ..., n - 1]`. */
  function Range(n: nat): (r: seq<int>)
    ensures |r| == n && forall k :: 0 <= k < n ==> r[k] == k
  {
    seq(n, k => k)
  }

  /** The indices of a connection-based result are a pair of lists. */
  predicate IsConnectionPair(indices: seq<Value>) {
    |indices| == 2 && indices[0].ListV? && indices[1].ListV?
  }

  /** `_PlotBase.__init__`'s `n_nodes`: the number of seeds of a pair of seed and target
      lists, otherwise the number of entries of `indices`. */
  function NodeCount(indices: seq<Value>): (n: nat)
    ensures IsConnectionPair(indices) ==> n == |indices[0].items|
    ensures !IsConnectionPair(indices) ==> n == |indices|
  {
    if IsConnectionPair(indices) then |indices[0].items| else |indices|
  }

  predicate AllInts(items: seq<Value>) {
    forall k :: 0 <= k < |items| ==> IsInt(items[k])
  }

  predicate NodesInRange(items: seq<Value>, nNodes: nat)
    requires AllInts(items)
  {
    forall k :: 0 <= k < |items| ==> 0 <= AsInt(items[k]) < nNodes
  }

  /** The `nodes` part of `_PlotBase._sort_plot_inputs`: None stands for every node. */
  function SortNodes(nNodes: nat, nodes: Value): (r: Result<seq<int>>)
    ensures nodes.NoneV? ==> r == Success(Range(nNodes))
    ensures !nodes.NoneV? ==>
              (r.Success? <==> nodes.ListV? && AllInts(nodes.items) && NodesInRange(nodes.items, nNodes))
    ensures !nodes.NoneV? && r.Success? ==>
              |r.value| == |nodes.items| && forall k :: 0 <= k < |r.value| ==> r.value[k] == AsInt(nodes.items[k])
    ensures r.Success? ==> forall k :: 0 <= k < |r.value| ==> 0 <= r.value[k] < nNodes
    ensures r.Failure? ==>
              (r.error.TypeError? <==> !(nodes.ListV? && AllInts(nodes.items))) &&
              (r.error.TypeError? || r.error.ValueError?)
  {
    var given := if nodes.NoneV? then ListV(seq(nNodes, k => IntV(k))) else nodes;
    assert nodes.NoneV? ==> AllInts(given.items) && forall k :: 0 <= k < nNodes ==> AsInt(given.items[k]) == k;
    if !given.ListV? || !AllInts(given.items) then
      Failure(TypeError(NodesTypeMsg))
    else if exists k :: 0 <= k < |given.items| && (AsInt(given.items[k]) >= nNodes || AsInt(given.items[k]) < 0) then
      Failure(ValueError(NodeMissingMsg))
    else
      var ns := seq(|given.items|, k requires 0 <= k < |given.items| => AsInt(given.items[k]));
      assert nodes.NoneV? ==> ns == Range(nNodes);
      Success(ns)
  }

  /** The `n_rows`/`n_cols` checks of `_PlotBase._sort_plot_inputs`. */
  function CheckGrid(nRows: Value, nCols: Value): (r: Option<Error>)
    ensures r.None? <==> IsInt(nRows) && IsInt(nCols) && AsInt(nRows) >= 1 && AsInt(nCols) >= 1
    ensures r.Some? ==> (r.value.TypeError? <==> !(IsInt(nRows) && IsInt(nCols)))
    ensures r.Some? ==> r.value.TypeError? || r.value.ValueError?
  {
    if !IsInt(nRows) || !IsInt(nCols) then Some(TypeError(GridTypeMsg))
    else if AsInt(nRows) < 1 || AsInt(nCols) < 1 then Some(ValueError(GridValueMsg))
    else None
  }

  /** The tick-interval checks of `_PlotBase._sort_plot_inputs`. */
  function CheckTicks(major: Value, minor: Value): (r: Option<Error>)
    ensures r.None? <==> IsNumber(major) && IsNumber(minor) && AsReal(minor) < AsReal(major)
    ensures r.Some? ==> (r.value.TypeError? <==> !(IsNumber(major) && IsNumber(minor)))
    ensures r.Some? ==> r.value.TypeError? || r.value.ValueError?
  {
    if !IsNumber(major) || !IsNumber(minor) then
      Some(TypeError(TicksTypeMsg))
    else if AsReal(minor) >= AsReal(major) then
      Some(ValueError(TicksOrderMsg))
    else None
  }

  /** `_PlotBase._sort_plot_inputs` of a plotter built on the result indices `indices`:
      checks nodes against `NodeCount(indices)`, then the grid, then the ticks. */
  function SortBase(indices: seq<Value>, nodes: Value, nRows: Value, nCols: Value, major: Value, minor: Value)
    : (r: Result<seq<int>>)
    ensures var sorted := SortNodes(NodeCount(indices), nodes);
            r.Success? <==> sorted.Success? && CheckGrid(nRows, nCols).None? && CheckTicks(major, minor).None?
    ensures r.Success? ==> r.value == SortNodes(NodeCount(indices), nodes).value
    ensures r.Success? ==> IsInt(nRows) && IsInt(nCols) && AsInt(nRows) >= 1 && AsInt(nCols) >= 1
    ensures r.Success? ==> IsNumber(major) && IsNumber(minor) && AsReal(minor) < AsReal(major)
    ensures nodes.NoneV? && r.Success? ==> r.value == Range(NodeCount(indices))
    ensures IsConnectionPair(indices) && nodes.NoneV? && r.Success? ==> |r.value| == |indices[0].items|
    ensures r.Success? ==> forall k :: 0 <= k < |r.value| ==> 0 <= r.value[k] < NodeCount(indices)
    ensures SortNodes(NodeCount(indices), nodes).Failure? ==> r == SortNodes(NodeCount(indices), nodes)
    ensures SortNodes(NodeCount(indices), nodes).Success? && CheckGrid(nRows, nCols).Some? ==>
              r == Failure(CheckGrid(nRows, nCols).value)
    ensures SortNodes(NodeCount(indices), nodes).Success? && CheckGrid(nRows, nCols).None? && CheckTicks(major, minor).Some? ==>
              r == Failure(CheckTicks(major, minor).value)
  {
    var ns :- SortNodes(NodeCount(indices), nodes);
    match CheckGrid(nRows, nCols)
    case Some(e) => Failure(e)
    case None =>
      match CheckTicks(major, minor)
      case Some(e) => Failure(e)
      case None => Success(ns)
  }

  /** Every entry of `qs` occurs in `stored`. */
  predicate AllIn(qs: seq<real>, stored: seq<real>) {
    forall k :: 0 <= k < |qs| ==> qs[k] in stored
  }

  /** `idcs[k]` is the first position of `qs[k]` in `stored`, for every k. */
  predicate FirstIndices(stored: seq<real>, qs: seq<real>, idcs: seq<nat>) {
    |idcs| == |qs| && forall k :: 0 <= k < |qs| ==> IsFirstIndex(stored, qs[k], idcs[k])
  }

  /** `[_fast_find_first(stored, q) for q in qs]`. */
  function Lookup(stored: seq<real>, qs: seq<real>): (r: seq<nat>)
    requires AllIn(qs, stored)
    ensures FirstIndices(stored, qs, r)
  {
    seq(|qs|, k requires 0 <= k < |qs| => FindFirst(stored, qs[k]).value)
  }

  /** The requested frequencies and their positions in the stored ones. */
  datatype FreqSelection = FreqSelection(f1s: seq<real>, f2s: seq<real>, f1Idcs: seq<nat>, f2Idcs: seq<nat>)

  /** A NumPy array other than one-dimensional. */
  predicate NotOneDim(v: Value)
    requires v.ArrayV?
  {
    |v.shape| != 1
  }

  /** A requested frequency argument with None standing for all stored frequencies. */
  function Defaulted(stored: seq<real>, v: Value): (r: Value)
    ensures v.NoneV? ==> r.ArrayV? && |r.shape| == 1 && r.elems == stored
    ensures !v.NoneV? ==> r == v
  {
    if v.NoneV? then ArrayV([|stored|], stored) else v
  }

  /** The frequency part of `_PlotCFC._sort_plot_inputs` and `_PlotWaveShape._sort_plot_inputs`:
      both (defaulted) arguments must be arrays, then one-dimensional, then hold only stored
      frequencies. */
  function SortFreqs(stored1: seq<real>, stored2: seq<real>, f1s: Value, f2s: Value): (r: Result<FreqSelection>)
    ensures var a1, a2 := Defaulted(stored1, f1s), Defaulted(stored2, f2s);
            r.Success? <==> a1.ArrayV? && a2.ArrayV? && |a1.shape| == 1 && |a2.shape| == 1 &&
                            AllIn(a1.elems, stored1) && AllIn(a2.elems, stored2)
    ensures var a1, a2 := Defaulted(stored1, f1s), Defaulted(stored2, f2s);
            !(a1.ArrayV? && a2.ArrayV?) ==> r == Failure(TypeError(FreqsTypeMsg))
    ensures var a1, a2 := Defaulted(stored1, f1s), Defaulted(stored2, f2s);
            a1.ArrayV? && a2.ArrayV? && (|a1.shape| != 1 || |a2.shape| != 1) ==> r == Failure(ValueError(FreqsDimMsg))
    ensures var a1, a2 := Defaulted(stored1, f1s), Defaulted(stored2, f2s);
            (a1.ArrayV? && a2.ArrayV? && |a1.shape| == 1 && |a2.shape| == 1 &&
             !(AllIn(a1.elems, stored1) && AllIn(a2.elems, stored2))) ==> r == Failure(ValueError(FreqsMissingMsg))
    ensures r.Success? ==> r.value.f1s == Defaulted(stored1, f1s).elems && r.value.f2s == Defaulted(stored2, f2s).elems
    ensures f1s.NoneV? && f2s.NoneV? ==> r.Success? && r.value.f1s == stored1 && r.value.f2s == stored2
    ensures r.Success? ==> FirstIndices(stored1, r.value.f1s, r.value.f1Idcs)
    ensures r.Success? ==> FirstIndices(stored2, r.value.f2s, r.value.f2Idcs)
  {
    var a1, a2 := Defaulted(stored1, f1s), Defaulted(stored2, f2s);
    if !a1.ArrayV? || !a2.ArrayV? then
      Failure(TypeError(FreqsTypeMsg))
    else if NotOneDim(a1) || NotOneDim(a2) then
      Failure(ValueError(FreqsDimMsg))
    else if !AllIn(a1.elems, stored1) || !AllIn(a2.elems, stored2) then
      Failure(ValueError(FreqsMissingMsg))
    else
      Success(FreqSelection(a1.elems, a2.elems, Lookup(stored1, a1.elems), Lookup(stored2, a2.elems)))
  }

  /** The error `len(entry) != 2` raises for one colour-bar limit pair. */
  function LimitError(entry: Value, argName: string): Error {
    if Len(entry).None? then TypeError(NoLenMsg)
    else ValueError("Limits in `" + argName + LimitLengthTail)
  }

  predicate IsLimitPair(entry: Value) {
    Len(entry) == Some(2)
  }

  /** The loop `for entry in cbar_range: if len(entry) != 2: raise ...`: the first bad entry
      decides the error. */
  function CheckLimits(entries: seq<Value>, argName: string): (r: Option<Error>)
    ensures r.None? <==> forall k :: 0 <= k < |entries| ==> IsLimitPair(entries[k])
    ensures r.Some? ==> exists k :: (0 <= k < |entries| && !IsLimitPair(entries[k]) &&
              (forall m :: 0 <= m < k ==> IsLimitPair(entries[m])) && r.value == LimitError(entries[k], argName))
  {
    if |entries| == 0 then None
    else if !IsLimitPair(entries[0]) then Some(LimitError(entries[0], argName))
    else
      var rest := CheckLimits(entries[1..], argName);
      assert forall k :: 1 <= k < |entries| ==> entries[k] == entries[1..][k - 1];
      if rest.Some? then
        var k :| 0 <= k < |entries[1..]| && !IsLimitPair(entries[1..][k]) &&
                 (forall m :: 0 <= m < k ==> IsLimitPair(entries[1..][m])) && rest.value == LimitError(entries[1..][k], argName);
        assert !IsLimitPair(entries[k + 1]) && forall m :: 0 <= m < k + 1 ==> IsLimitPair(entries[m]);
        rest
      else rest
  }

  /** The fill value `[fill for _ in range(len(nodes))]` uses when `cbar_range` is not a tuple. */
  function Fill(range: Value): Value {
    if range.NoneV? then ListV([NoneV, NoneV]) else range
  }

  /** The `cbar_range` normalisation of `_PlotCFC._sort_plot_inputs`, one range of
      `_PlotWaveShape._sort_plot_inputs`: one limit pair per node. `argName` names the
      argument in the error messages. */
  function NormaliseCbarRange(range: Value, nNodes: nat, argName: string): (r: Result<seq<Value>>)
    ensures !(range.ListV? || range.TupleV? || range.NoneV?) ==> r == Failure(TypeError("`" + argName + CbarTypeTail))
    ensures range.TupleV? ==>
              (r.Success? <==> |range.items| == nNodes && forall k :: 0 <= k < nNodes ==> IsLimitPair(range.items[k]))
    ensures range.TupleV? && r.Success? ==> r.value == range.items
    ensures range.TupleV? && |range.items| != nNodes ==> r == Failure(ValueError("If `" + argName + CbarCountTail))
    ensures range.TupleV? && |range.items| == nNodes && r.Failure? ==>
              exists k :: (0 <= k < nNodes && !IsLimitPair(range.items[k]) &&
                (forall m :: 0 <= m < k ==> IsLimitPair(range.items[m])) && r.error == LimitError(range.items[k], argName))
    ensures range.NoneV? ==> r.Success? && r.value == seq(nNodes, _ => ListV([NoneV, NoneV]))
    ensures range.ListV? ==> (r.Success? <==> nNodes == 0 || |range.items| == 2)
    ensures range.ListV? && nNodes > 0 && |range.items| != 2 ==> r == Failure(ValueError("Limits in `" + argName + LimitLengthTail))
    ensures range.ListV? && r.Success? ==> |r.value| == nNodes && forall k :: 0 <= k < nNodes ==> r.value[k] == range
    ensures r.Success? ==> |r.value| == nNodes && forall k :: 0 <= k < nNodes ==> IsLimitPair(r.value[k])
  {
    if !(range.ListV? || range.TupleV? || range.NoneV?) then
      Failure(TypeError("`" + argName + CbarTypeTail))
    else if range.TupleV? && |range.items| != nNodes then
      Failure(ValueError("If `" + argName + CbarCountTail))
    else
      var entries := if range.TupleV? then range.items else seq(nNodes, _ => Fill(range));
      match CheckLimits(entries, argName)
      case Some(e) => Failure(e)
      case None => Success(entries)
  }

  /** The inputs `_PlotCFC.plot` goes on with. */
  datatype CfcInputs = CfcInputs(nodes: seq<int>, freqs: FreqSelection, cbarRange: seq<Value>)

  /** `_PlotCFC._sort_plot_inputs`: the base checks, then the frequencies, then the colour bar;
      the first check that fails decides the error. */
  function SortCfcInputs(indices: seq<Value>, stored1: seq<real>, stored2: seq<real>, nodes: Value, f1s: Value, f2s: Value,
                         nRows: Value, nCols: Value, major: Value, minor: Value, cbarRange: Value)
    : (r: Result<CfcInputs>)
    ensures var base := SortBase(indices, nodes, nRows, nCols, major, minor);
            r.Success? <==>
              && base.Success?
              && SortFreqs(stored1, stored2, f1s, f2s).Success?
              && NormaliseCbarRange(cbarRange, |base.value|, CbarRangeName).Success?
    ensures var base := SortBase(indices, nodes, nRows, nCols, major, minor);
            r.Success? ==>
              && r.value.nodes == base.value
              && r.value.freqs == SortFreqs(stored1, stored2, f1s, f2s).value
              && r.value.cbarRange == NormaliseCbarRange(cbarRange, |base.value|, CbarRangeName).value
              && |r.value.cbarRange| == |r.value.nodes|
    ensures var base := SortBase(indices, nodes, nRows, nCols, major, minor);
            base.Failure? ==> r == base.PropagateFailure()
    ensures var base := SortBase(indices, nodes, nRows, nCols, major, minor);
            base.Success? && SortFreqs(stored1, stored2, f1s, f2s).Failure? ==>
              r == SortFreqs(stored1, stored2, f1s, f2s).PropagateFailure()
    ensures var base := SortBase(indices, nodes, nRows, nCols, major, minor);
            base.Success? && SortFreqs(stored1, stored2, f1s, f2s).Success? &&
            NormaliseCbarRange(cbarRange, |base.value|, CbarRangeName).Failure? ==>
              r == NormaliseCbarRange(cbarRange, |base.value|, CbarRangeName).PropagateFailure()
  {
    var ns :- SortBase(indices, nodes, nRows, nCols, major, minor);
    var fs :- SortFreqs(stored1, stored2, f1s, f2s);
    var cb :- NormaliseCbarRange(cbarRange, |ns|, CbarRangeName);
    Success(CfcInputs(ns, fs, cb))
  }

  /** The names of the four wave-shape colour-bar arguments, in order. */
  const CbarNames: seq<string> := ["abs", "real", "imag", "phase"]

  function CbarLabel(k: nat): string
    requires k < 4
  {
    "cbar_range_" + CbarNames[k]
  }

  /** The container a normalised range goes back into: a tuple stays a tuple. */
  function Rewrap(range: Value, entries: seq<Value>): (r: Value)
    ensures r.ListV? || r.TupleV?
    ensures r.items == entries
  {
    if range.TupleV? then TupleV(entries) else ListV(entries)
  }

  /** The k-th of the `given` colour-bar ranges, normalised under its own argument name. */
  function Normalised(given: seq<Value>, nNodes: nat, k: nat): Result<seq<Value>>
    requires k < |given| && k < 4
  {
    NormaliseCbarRange(given[k], nNodes, CbarLabel(k))
  }

  /** The colour-bar loop of `_PlotWaveShape._sort_plot_inputs`: normalises the abs, real,
      imag and phase ranges in that order, overwriting each slot of `cbar_ranges` in place. */
  method SortCbarRanges(abs: Value, re: Value, im: Value, phase: Value, nNodes: nat) returns (r: Result<seq<Value>>)
    ensures var given := [abs, re, im, phase];
            r.Success? <==> forall k :: 0 <= k < 4 ==> Normalised(given, nNodes, k).Success?
    ensures var given := [abs, re, im, phase];
            r.Success? ==> |r.value| == 4 && forall k :: 0 <= k < 4 ==>
              r.value[k] == Rewrap(given[k], Normalised(given, nNodes, k).value)
    ensures var given := [abs, re, im, phase];
            r.Failure? ==> exists k :: (0 <= k < 4 &&
              (forall m :: 0 <= m < k ==> Normalised(given, nNodes, m).Success?) &&
              Normalised(given, nNodes, k).Failure? &&
              r == Normalised(given, nNodes, k).PropagateFailure())
  {
    ghost var given := [abs, re, im, phase];
    var cbarRanges := [abs, re, im, phase];
    var cbarIdx := 0;
    while cbarIdx < 4
      invariant 0 <= cbarIdx <= 4 && |cbarRanges| == 4
      invariant forall m :: 0 <= m < cbarIdx ==>
                  Normalised(given, nNodes, m).Success? &&
                  cbarRanges[m] == Rewrap(given[m], Normalised(given, nNodes, m).value)
      invariant forall m :: cbarIdx <= m < 4 ==> cbarRanges[m] == given[m]
    {
      var range := cbarRanges[cbarIdx];
      var normalised := NormaliseCbarRange(range, nNodes, CbarLabel(cbarIdx));
      assert normalised == Normalised(given, nNodes, cbarIdx);
      if normalised.Failure? {
        return normalised.PropagateFailure();
      }
      cbarRanges := cbarRanges[cbarIdx := Rewrap(range, normalised.value)];
      assert cbarRanges[cbarIdx] == Rewrap(given[cbarIdx], Normalised(given, nNodes, cbarIdx).value);
      cbarIdx := cbarIdx + 1;
    }
    return Success(cbarRanges);
  }

  /** The inputs `_PlotWaveShape.plot` goes on with. */
  datatype WaveShapeInputs = WaveShapeInputs(nodes: seq<int>, freqs: FreqSelection, cbarRanges: seq<Value>)

  /** `_PlotWaveShape._sort_plot_inputs`: the base checks, the frequencies, then the four
      colour-bar ranges; the first check that fails decides the error. */
  method SortWaveShapeInputs(indices: seq<Value>, stored1: seq<real>, stored2: seq<real>, nodes: Value, f1s: Value, f2s: Value,
                             nRows: Value, nCols: Value, major: Value, minor: Value,
                             abs: Value, re: Value, im: Value, phase: Value)
    returns (r: Result<WaveShapeInputs>)
    ensures var base := SortBase(indices, nodes, nRows, nCols, major, minor);
            r.Success? <==>
              && base.Success?
              && SortFreqs(stored1, stored2, f1s, f2s).Success?
              && forall k :: 0 <= k < 4 ==> Normalised([abs, re, im, phase], |base.value|, k).Success?
    ensures var base := SortBase(indices, nodes, nRows, nCols, major, minor);
            base.Failure? ==> r == base.PropagateFailure()
    ensures var base := SortBase(indices, nodes, nRows, nCols, major, minor);
            base.Success? && SortFreqs(stored1, stored2, f1s, f2s).Failure? ==>
              r == SortFreqs(stored1, stored2, f1s, f2s).PropagateFailure()
    ensures var base := SortBase(indices, nodes, nRows, nCols, major, minor);
            var given := [abs, re, im, phase];
            base.Success? && SortFreqs(stored1, stored2, f1s, f2s).Success? && r.Failure? ==>
              exists k :: (0 <= k < 4 &&
                (forall m :: 0 <= m < k ==> Normalised(given, |base.value|, m).Success?) &&
                Normalised(given, |base.value|, k).Failure? &&
                r == Normalised(given, |base.value|, k).PropagateFailure())
    ensures r.Success? ==> r.value.nodes == SortBase(indices, nodes, nRows, nCols, major, minor).value
    ensures r.Success? ==> r.value.freqs == SortFreqs(stored1, stored2, f1s, f2s).value
    ensures var given := [abs, re, im, phase];
            r.Success? ==> |r.value.cbarRanges| == 4 && forall k :: 0 <= k < 4 ==>
              r.value.cbarRanges[k] == Rewrap(given[k], Normalised(given, |r.value.nodes|, k).value)
  {
    var ns :- SortBase(indices, nodes, nRows, nCols, major, minor);
    var fs :- SortFreqs(stored1, stored2, f1s, f2s);
    var cb :- SortCbarRanges(abs, re, im, phase, |ns|);
    return Success(WaveShapeInputs(ns, fs, cb));
  }

  function Abs(x: real): real {
    if x < 0.0 then -x else x
  }

  /** `i` is the first position of a stored time nearest to `t`. */
  predicate IsNearest(s: seq<real>, t: real, i: nat) {
    i < |s| &&
    (forall j :: 0 <= j < |s| ==> Abs(s[i] - t) <= Abs(s[j] - t)) &&
    (forall j :: 0 <= j < i ==> Abs(s[i] - t) < Abs(s[j] - t))
  }

  /** `np.abs(s - t).argmin()`: the first position of a minimal distance. */
  function NearestIndex(s: seq<real>, t: real): (r: nat)
    requires |s| > 0
    ensures IsNearest(s, t, r)
    decreases |s|
  {
    if |s| == 1 then 0
    else
      var k := NearestIndex(s[..|s| - 1], t);
      if Abs(s[|s| - 1] - t) < Abs(s[k] - t) then |s| - 1 else k
  }

  /** `s[lo : hi]` for non-negative bounds. */
  function Slice(s: seq<real>, lo: nat, hi: nat): (r: seq<real>)
    ensures lo < hi <= |s| ==> r == s[lo..hi]
    ensures hi <= lo ==> r == []
  {
    if hi <= lo || |s| <= lo then []
    else if hi <= |s| then s[lo..hi] else s[lo..]
  }

  /** The times `_PlotTDE.plot` goes on with, and their positions. */
  datatype TimeSelection = TimeSelection(times: seq<real>, first: int, last: int)

  /** The `times` part of `_PlotTDE._sort_plot_inputs`: None selects every stored time;
      otherwise the two requested times are mapped to their nearest stored ones and the
      stored times between them, both included, are selected. */
  function SortTimes(stored: seq<real>, times: Value): (r: Result<TimeSelection>)
    ensures times.NoneV? ==> r == Success(TimeSelection(stored, 0, |stored| - 1))
    ensures !times.NoneV? && !times.ListV? ==> r.Failure? && r.error.TypeError?
    ensures times.ListV? && |times.items| != 2 ==> r.Failure? && r.error.ValueError?
    ensures times.ListV? && |times.items| == 2 && IsNumber(times.items[0]) && IsNumber(times.items[1]) ==>
              (r.Success? <==> |stored| > 0)
    ensures times.ListV? && r.Success? ==>
              |times.items| == 2 && IsNumber(times.items[0]) && IsNumber(times.items[1]) &&
              r.value.first >= 0 && r.value.last >= 0 &&
              IsNearest(stored, AsReal(times.items[0]), r.value.first as nat) &&
              IsNearest(stored, AsReal(times.items[1]), r.value.last as nat)
    ensures r.Success? && r.value.first <= r.value.last ==>
              0 <= r.value.first <= r.value.last < |stored| && r.value.times == stored[r.value.first..r.value.last + 1]
    ensures r.Success? && r.value.first > r.value.last ==> r.value.times == []
  {
    if times.NoneV? then
      assert stored[0..|stored|] == stored;
      Success(TimeSelection(Slice(stored, 0, |stored|), 0, |stored| - 1))
    else if !times.ListV? then
      Failure(TypeError(TimesTypeMsg))
    else if |times.items| != 2 then
      Failure(ValueError(TimesLengthMsg))
    else if !IsNumber(times.items[0]) then
      Failure(TypeError(OperandMsg))
    else if |stored| == 0 then
      Failure(ValueError(EmptyArgminMsg))
    else if !IsNumber(times.items[1]) then
      Failure(TypeError(OperandMsg))
    else
      var first := NearestIndex(stored, AsReal(times.items[0]));
      var last := NearestIndex(stored, AsReal(times.items[1]));
      Success(TimeSelection(Slice(stored, first, last + 1), first, last))
  }

  /** The inputs `_PlotTDE.plot` goes on with. */
  datatype TdeInputs = TdeInputs(nodes: seq<int>, times: TimeSelection)

  /** `_PlotTDE._sort_plot_inputs`: the base checks, then the times; the first check that
      fails decides the error. */
  function SortTdeInputs(indices: seq<Value>, stored: seq<real>, nodes: Value, times: Value,
                         nRows: Value, nCols: Value, major: Value, minor: Value)
    : (r: Result<TdeInputs>)
    ensures var base := SortBase(indices, nodes, nRows, nCols, major, minor);
            r.Success? <==> base.Success? && SortTimes(stored, times).Success?
    ensures var base := SortBase(indices, nodes, nRows, nCols, major, minor);
            r.Success? ==> r.value == TdeInputs(base.value, SortTimes(stored, times).value)
    ensures var base := SortBase(indices, nodes, nRows, nCols, major, minor);
            base.Failure? ==> r == base.PropagateFailure()
    ensures var base := SortBase(indices, nodes, nRows, nCols, major, minor);
            base.Success? && SortTimes(stored, times).Failure? ==> r == SortTimes(stored, times).PropagateFailure()
  {
    var ns :- SortBase(indices, nodes, nRows, nCols, major, minor);
    var ts :- SortTimes(stored, times);
    Success(TdeInputs(ns, ts))
  }
}
