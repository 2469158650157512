/** Pagination of plotted nodes over figures of `n_rows * n_cols` subplots. */
module PlotLayout {

  /** `ceil(n / p)`: the number of figures of `p` slots that `n` nodes need. */
  function PageCount(n: nat, p: nat): nat
    requires p > 0
  {
    (n + p - 1) / p
  }

  lemma MulMono(a: int, b: int, p: int)
    requires a <= b && p >= 0
    ensures a * p <= b * p
  {
  }

  /** The only `q` with `q * p <= x < q * p + p` is `x / p`, and `x % p` is what is left. */
  lemma {:induction false} DivModUnique(x: int, p: int, q: int)
    requires p > 0 && q * p <= x < q * p + p
    ensures x / p == q && x % p == x - q * p
  {
    var d := x / p;
    assert x == d * p + x % p;
    if d < q {
      MulMono(d + 1, q, p);
    } else if d > q {
      MulMono(q + 1, d, p);
    }
  }

  /** `m` is the least number of pages of `p` slots that hold `n` nodes exactly when it is
      `PageCount(n, p)`. */
  lemma {:induction false} PageCountIsLeast(n: nat, p: nat, m: nat)
    requires p > 0
    ensures (m * p >= n && (m == 0 || (m - 1) * p < n)) <==> m == PageCount(n, p)
  {
    var q := PageCount(n, p);
    DivModUnique(n + p - 1, p, q);
    assert q * p <= n + p - 1 < q * p + p;
    assert (q - 1) * p == q * p - p;
    assert q * p >= n;
    if q > 0 {
      assert (q - 1) * p < n;
    } else {
      assert n == 0;
    }
    if m * p >= n && (m == 0 || (m - 1) * p < n) {
      if m < q {
        MulMono(m, q - 1, p);
      } else if m > q {
        MulMono(q, m - 1, p);
      }
    }
  }

  /** The pages hold exactly as many slots as there are nodes iff `n` is a multiple of `p`. */
  lemma {:induction false} PagesExactIff(n: nat, p: nat)
    requires p > 0
    ensures PageCount(n, p) * p >= n
    ensures PageCount(n, p) * p == n <==> n % p == 0
  {
    var q := PageCount(n, p);
    PageCountIsLeast(n, p, q);
    if n % p == 0 {
      DivModUnique(n, p, n / p);
      DivModUnique(n + p - 1, p, n / p);
    }
    if q * p == n {
      DivModUnique(n, p, q);
    }
  }

  /** `_PlotBase._create_plots`: walks the nodes and opens a figure of `n_rows * n_cols`
      subplots whenever the node index reaches the next unfilled slot (`axes[k]` is the
      number of subplots of figure k). */
  method CreatePlots(nodeCount: nat, nRows: nat, nCols: nat) returns (axes: seq<nat>)
    requires nRows >= 1 && nCols >= 1
    ensures |axes| == PageCount(nodeCount, nRows * nCols)
    ensures forall k :: 0 <= k < |axes| ==> axes[k] == nRows * nCols
  {
    var p := nRows * nCols;
    MulMono(1, nRows, nCols);
    axes := [];
    var plotN := 0;
    for nodeI := 0 to nodeCount
      invariant plotN == |axes| * p
      invariant nodeI <= plotN < nodeI + p
      invariant nodeI > 0 ==> (|axes| - 1) * p < nodeCount
      invariant forall k :: 0 <= k < |axes| ==> axes[k] == p
    {
      if nodeI == plotN {
        axes := axes + [p];
        plotN := plotN + p;
      }
      if plotN >= nodeCount {
        break;
      }
    }
    PageCountIsLeast(nodeCount, p, |axes|);
  }

  /** `_PlotWaveShape._create_plots`: the same pages, each of `n_rows * n_cols` subfigures
      of a 2 x 2 grid of axes (`figures[k][s]` is the number of axes of subfigure s). */
  method CreateWaveShapePlots(nodeCount: nat, nRows: nat, nCols: nat) returns (figures: seq<seq<nat>>)
    requires nRows >= 1 && nCols >= 1
    ensures |figures| == PageCount(nodeCount, nRows * nCols)
    ensures forall k :: 0 <= k < |figures| ==> |figures[k]| == nRows * nCols
    ensures forall k, s :: 0 <= k < |figures| && 0 <= s < |figures[k]| ==> figures[k][s] == 4
  {
    var pages := CreatePlots(nodeCount, nRows, nCols);
    figures := seq(|pages|, k requires 0 <= k < |pages| => seq(pages[k], s => 2 * 2));
  }

  /** Slot `slot` of figure `figure` shows `node`. */
  datatype Placement = Placement(figure: nat, slot: nat, node: int)

  /** Where the k-th requested node is drawn: figure `k / p`, slot `k % p`. */
  function Layout(nodes: seq<int>, p: nat, k: nat): Placement
    requires p > 0 && k < |nodes|
  {
    Placement(k / p, k % p, nodes[k])
  }

  /** Slot arithmetic of the nested row and column loops. */
  lemma SlotBound(row: nat, col: nat, nRows: nat, nCols: nat)
    requires row < nRows && col < nCols
    ensures row * nCols + col < nRows * nCols
    ensures row * nCols + col + 1 == nRows * nCols <==> row == nRows - 1 && col == nCols - 1
  {
    MulMono(row, nRows - 1, nCols);
    assert (nRows - 1) * nCols == nRows * nCols - nCols;
    if row < nRows - 1 {
      MulMono(row + 1, nRows - 1, nCols);
      assert (row + 1) * nCols == row * nCols + nCols;
    }
  }

  /** Drawing the next node at slot `slot` of figure `fig` extends a correct layout. */
  lemma PlaceNext(nodes: seq<int>, p: nat, placed: seq<Placement>, fig: nat, slot: nat)
    requires p > 0 && slot < p && |placed| == fig * p + slot < |nodes|
    requires forall k :: 0 <= k < |placed| ==> placed[k] == Layout(nodes, p, k)
    ensures var placed' := placed + [Placement(fig, slot, nodes[|placed|])];
            forall k :: 0 <= k < |placed'| ==> placed'[k] == Layout(nodes, p, k)
  {
    DivModUnique(|placed|, p, fig);
  }

  /** The counter bookkeeping of `_plot_results` as written: every slot of every figure is
      visited and reads `nodes[plot_n]`. All nodes are drawn in order; the read past the last
      node raises IndexError (`overrun`) exactly when the number of nodes is not a multiple
      of `n_rows * n_cols`. */
  method PlotResultsAsWritten(nodes: seq<int>, figureCount: nat, nRows: nat, nCols: nat)
    returns (placed: seq<Placement>, overrun: bool)
    requires nRows >= 1 && nCols >= 1
    requires figureCount == PageCount(|nodes|, nRows * nCols)
    ensures overrun <==> |nodes| % (nRows * nCols) != 0
    ensures |placed| == |nodes|
    ensures forall k :: 0 <= k < |nodes| ==> placed[k] == Layout(nodes, nRows * nCols, k)
  {
    var p := nRows * nCols;
    MulMono(1, nRows, nCols);
    var figI, plotN, figPlotN := 0, 0, 0;
    placed := [];
    while figI < figureCount
      invariant figI <= figureCount
      invariant plotN == figI * p && figPlotN == 0
      invariant |placed| == plotN && plotN <= |nodes| && (forall k :: 0 <= k < plotN ==> placed[k] == Layout(nodes, p, k))
    {
      ghost var fig0, base := figI, plotN;
      // position of the current subplot within the figure, `row * n_cols + col`
      ghost var slot := 0;
      for row := 0 to nRows
        invariant slot == row * nCols && plotN == base + slot
        invariant slot < p ==> figI == fig0 && figPlotN == slot
        invariant slot == p ==> figI == fig0 + 1 && figPlotN == 0
        invariant |placed| == plotN && plotN <= |nodes| && (forall k :: 0 <= k < plotN ==> placed[k] == Layout(nodes, p, k))
      {
        MulMono(row, nRows, nCols);
        for col := 0 to nCols
          invariant slot == row * nCols + col && plotN == base + slot
          invariant slot <= p
          invariant slot < p ==> figI == fig0 && figPlotN == slot
          invariant slot == p ==> figI == fig0 + 1 && figPlotN == 0
          invariant |placed| == plotN && plotN <= |nodes| && (forall k :: 0 <= k < plotN ==> placed[k] == Layout(nodes, p, k))
        {
          SlotBound(row, col, nRows, nCols);
          if plotN >= |nodes| {
            overrun := true;
            assert figureCount * p > |nodes| by {
              MulMono(fig0 + 1, figureCount, p);
              assert (fig0 + 1) * p == fig0 * p + p;
            }
            PagesExactIff(|nodes|, p);
            return;
          }
          PlaceNext(nodes, p, placed, figI, figPlotN);
          placed := placed + [Placement(figI, figPlotN, nodes[plotN])];
          plotN := plotN + 1;
          slot := slot + 1;
          figPlotN := figPlotN + 1;
          if figPlotN >= p {
            figPlotN := 0;
            figI := figI + 1;
          }
        }
        assert (row + 1) * nCols == row * nCols + nCols;
      }
      assert (fig0 + 1) * p == fig0 * p + p;
    }
    PagesExactIff(|nodes|, p);
    overrun := false;
  }

  /** A concrete overrun: three nodes on figures of one row and two columns. Two figures
      are opened, and the fourth slot reads `nodes[3]`. */
  method OverrunExample() returns (overrun: bool)
    ensures overrun
  {
    var pages := CreatePlots(3, 1, 2);
    var placed;
    placed, overrun := PlotResultsAsWritten([0, 1, 2], |pages|, 1, 2);
  }

  /** The evidently intended bookkeeping: the same counters, stopping after the last node,
      so that the trailing slots of the last figure stay empty. */
  method PlotResults(nodes: seq<int>, figureCount: nat, nRows: nat, nCols: nat) returns (placed: seq<Placement>)
    requires nRows >= 1 && nCols >= 1
    requires figureCount == PageCount(|nodes|, nRows * nCols)
    ensures |placed| == |nodes|
    ensures forall k :: 0 <= k < |nodes| ==> placed[k] == Layout(nodes, nRows * nCols, k)
    ensures forall k :: 0 <= k < |nodes| ==> placed[k].figure < figureCount && placed[k].slot < nRows * nCols
  {
    var p := nRows * nCols;
    MulMono(1, nRows, nCols);
    var figI, figPlotN := 0, 0;
    placed := [];
    for plotN := 0 to |nodes|
      invariant plotN == figI * p + figPlotN && figPlotN < p
      invariant |placed| == plotN && plotN <= |nodes| && (forall k :: 0 <= k < plotN ==> placed[k] == Layout(nodes, p, k))
    {
      PlaceNext(nodes, p, placed, figI, figPlotN);
      placed := placed + [Placement(figI, figPlotN, nodes[plotN])];
      figPlotN := figPlotN + 1;
      if figPlotN >= p {
        figPlotN := 0;
        figI := figI + 1;
      }
    }
    PagesExactIff(|nodes|, p);
    forall k | 0 <= k < |nodes| ensures placed[k].figure < figureCount {
      var f := k / p;
      DivModUnique(k, p, f);
      if f >= figureCount {
        MulMono(figureCount, f, p);
      }
    }
  }
}
