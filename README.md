# PyBispectra: phase-phase coupling and result-plotting inputs, modelled in Dafny

This project models two parts of PyBispectra.

**Phase-phase coupling (PPC), `src/pybispectra/cfc/ppc.py`** (module `PpcKernel`).
- The per-connection kernel `_compute_ppc` fills a `[len(f2s) x len(f1s)]` array. Every cell starts as NaN. A cell is overwritten only when its f1 is below its f2, and then from two columns: the seed's coefficients at the first position of f1 on the frequency axis, and the target's coefficients at the first position of f2.
- `PPC._compute_ppc` builds one argument record per zipped (seed, target) pair, runs the kernel on each and stacks the grids in connection order.
- `PPC.compute` clears the stored grids, takes the outcome of input sorting, computes, and stores `Results(ppc, indices, f2, f1, "PPC")`.
- The value of a written cell is floating-point complex arithmetic. It is a parameter `ppcValue` of type `CellValue`, so every property holds for every cell formula.
- The kernel is an imperative method over a fresh `array2<Cell>` and is proved against the reference grid `KernelGrid`. The process object is a class whose methods update its fields.

**Plotting inputs and pagination, `src/pybispectra/utils/_plot.py`** (modules `PlotInputs` and `PlotLayout`).
- The node count of `_PlotBase.__init__`.
- The checks and normalisations of the `_sort_plot_inputs` methods: the base class, CFC, TDE and wave shape. They cover nodes, grid size, tick intervals, frequency selection, colour-bar ranges and time selection. Each exception is modelled with its type and its order. Messages of the code's own `raise` statements are verbatim.
- The figure count of `_create_plots`.
- The `plot_n`/`fig_i`/`fig_plot_n` bookkeeping of `_plot_results`.
- Python arguments are values of a `Value` datatype. `bool` counts as an `int`, as in Python.

`FreqIndex.FindFirst` stands in for `fast_find_first`/`_fast_find_first`, whose source is not part of this model. It is a linear scan with the contract "first position of the value, or none". `Common` holds `Option`, `Result` and the exception kinds.

## Model

| member | source | states |
|---|---|---|
| FreqIndex.FindFirst | src/pybispectra/cfc/ppc.py:179-180 | a position is found iff the value occurs on the axis, and it is the first position holding the value |
| PpcKernel.KernelGrid | src/pybispectra/cfc/ppc.py:173-195 | the grid has len(f2s) rows of len(f1s) cells; cell [i, j] is NaN iff f2s[i] <= f1s[j]; otherwise it is the cell value of the seed column at the first position of f1 and the target column at the first position of f2 |
| PpcKernel.ComputeConnection | src/pybispectra/cfc/ppc.py:143-197 | fills a fresh [len(f2s) x len(f1s)] array in place; succeeds iff no cell with f1 < f2 asks for a frequency missing from the axis; on success every cell equals KernelGrid; on failure it reports a requested frequency that is not on the axis |
| PpcKernel.ConnectionSlice | src/pybispectra/cfc/ppc.py:117 | `data[:, (seed, target)]`: every epoch keeps exactly the seed's and the target's channel, in that order |
| PpcKernel.ConnectionArgs | src/pybispectra/cfc/ppc.py:115-123 | one record per zipped pair (zip stops at the shorter list); record k holds channels seeds[k] and targets[k] of every epoch and shares freqs, f1 and f2 |
| PpcKernel.Stacked | src/pybispectra/cfc/ppc.py:125-134 | the stacked grids exist iff every connection's lookups succeed; grid k is the kernel grid of record k |
| PpcKernel.Dispatch | src/pybispectra/cfc/ppc.py:125-134 | the sequential map over the records returns one grid per record, in record order, each equal to KernelGrid; it fails iff some record's lookup fails |
| PpcKernel.LookupFailsIff | src/pybispectra/cfc/ppc.py:176-180 | with at least one connection, no connection's lookup fails iff every f1 below some f2, and that f2, occur on the axis |
| PpcKernel.FailuresShared | src/pybispectra/cfc/ppc.py:115-123 | connections share the frequency arguments, so either every connection's kernel call fails or none does |
| PpcKernel.ExpectedResults | src/pybispectra/cfc/ppc.py:113-140 | a result exists iff there are no connections or the frequencies resolve; it has one grid per connection, is named "PPC", stores the frequencies as (f2, f1), and is NaN exactly where f2 <= f1 |
| PpcKernel.Ppc.ResetAttrs | src/pybispectra/cfc/ppc.py:108-111 | the stored grids are cleared |
| PpcKernel.Ppc.ComputePpc | src/pybispectra/cfc/ppc.py:113-134 | on success the stored grids are the stacked kernel grids of the current connections; on failure they are unchanged |
| PpcKernel.Ppc.StoreResults | src/pybispectra/cfc/ppc.py:136-140 | the stored result is replaced by the grids, the connections, f2, f1 and the name "PPC" |
| PpcKernel.Ppc.Compute | src/pybispectra/cfc/ppc.py:61-106 | the grids are cleared first; a sorting failure is passed on, and the stored result and selection keep their old values (the base reset touches neither, and sorting stores nothing before it fails); otherwise the selection is stored, and the call succeeds iff ExpectedResults exists, which it then stores |
| PlotInputs.Range | src/pybispectra/utils/_plot.py:63 | `np.arange(n).tolist()` has n entries and entry k is k |
| PlotInputs.NodeCount | src/pybispectra/utils/_plot.py:32-39 | the number of seeds when indices is a pair of lists, otherwise the number of entries of indices; SortBase checks nodes against it |
| PlotInputs.SortNodes | src/pybispectra/utils/_plot.py:62-73 | None gives every node 0..n_nodes-1; otherwise accepted iff a list of ints all in [0, n_nodes), returned unchanged; TypeError iff not a list of ints, otherwise ValueError |
| PlotInputs.CheckGrid | src/pybispectra/utils/_plot.py:75-78 | accepted iff both are ints >= 1; TypeError iff one is not an int, otherwise ValueError |
| PlotInputs.CheckTicks | src/pybispectra/utils/_plot.py:80-90 | accepted iff both are numbers and minor < major; TypeError iff one is not a number, otherwise ValueError |
| PlotInputs.SortBase | src/pybispectra/utils/_plot.py:48-92 | n_nodes is NodeCount(indices); accepted iff the nodes, grid and tick checks all pass, and returns the sorted nodes, which are all below n_nodes; default nodes are one per seed of a pair of lists; the first failing check (nodes, then grid, then ticks) gives the error |
| PlotInputs.Lookup | src/pybispectra/utils/_plot.py:310-311 | entry k is the first position of query k among the stored frequencies |
| PlotInputs.SortFreqs | src/pybispectra/utils/_plot.py:296-311 | None stands for the stored frequencies; with that default, TypeError iff a side is not an array, else ValueError (dimension message) iff a side is not 1D, else ValueError (missing message) iff an entry is not stored, else success with the requested entries and their first positions |
| PlotInputs.CheckLimits | src/pybispectra/utils/_plot.py:324-328 | passes iff every entry has length 2; otherwise the error is that of the first bad entry (TypeError for no length, else ValueError) |
| PlotInputs.NormaliseCbarRange | src/pybispectra/utils/_plot.py:313-328 | a non-list/tuple/None raises TypeError with its message; a tuple needs one entry per node (ValueError with its message), is kept as given, and otherwise fails with the error of its first entry without length 2; None becomes [None, None] per node; a list is repeated per node, accepted iff it has length 2 or there are no nodes, else the limit-length ValueError; a result has one length-2 entry per node |
| PlotInputs.SortCfcInputs | src/pybispectra/utils/_plot.py:252-330 | accepted iff the base checks, the frequency selection and the colour-bar normalisation (against the sorted node count) all pass; the result holds each of their outputs; otherwise the first failing step's error is passed on unchanged |
| PlotInputs.SortCbarRanges | src/pybispectra/utils/_plot.py:862-894 | the abs, real, imag and phase ranges are normalised in that order under their own argument names; success iff all four normalise, slot k then holds range k normalised (a tuple stays a tuple); a failure is the first range's failure |
| PlotInputs.SortWaveShapeInputs | src/pybispectra/utils/_plot.py:796-896 | accepted iff the base checks, the frequency selection and all four colour-bar ranges pass; base-check and frequency errors come first and are passed on unchanged, then the error of the first failing range; a result holds the sorted nodes, the frequency selection and the four normalised ranges |
| PlotInputs.NearestIndex | src/pybispectra/utils/_plot.py:547 | `abs(times - t).argmin()`: the index has minimal distance to t, and no earlier index is as close |
| PlotInputs.Slice | src/pybispectra/utils/_plot.py:548 | Python slicing with non-negative bounds: the sub-sequence when lo < hi <= len, empty when hi <= lo |
| PlotInputs.SortTimes | src/pybispectra/utils/_plot.py:538-548 | None selects indices (0, len-1) and every stored time; a non-list raises TypeError and a length other than 2 raises ValueError; two numbers are accepted iff there are stored times, map to their nearest stored indices, and select the inclusive slice between them |
| PlotInputs.SortTdeInputs | src/pybispectra/utils/_plot.py:509-550 | accepted iff the base checks and the time selection pass; it returns both results; otherwise the base error, or else the time error, is passed on unchanged |
| PlotLayout.PageCountIsLeast | src/pybispectra/utils/_plot.py:101-107 | `ceil(n / p)` is the least number of pages of p slots holding n nodes |
| PlotLayout.PagesExactIff | src/pybispectra/utils/_plot.py:351-354 | the pages hold at least n slots, and exactly n iff n is a multiple of p |
| PlotLayout.CreatePlots | src/pybispectra/utils/_plot.py:94-127 | opens ceil(len(nodes) / (n_rows * n_cols)) figures, each of n_rows * n_cols subplots |
| PlotLayout.CreateWaveShapePlots | src/pybispectra/utils/_plot.py:898-943 | the same number of figures, each of n_rows * n_cols subfigures with a 2 x 2 grid of axes |
| PlotLayout.PlotResultsAsWritten | src/pybispectra/utils/_plot.py:348-395 | node k is drawn on figure k / p, slot k % p, for every node; a slot reads past the last node iff len(nodes) is not a multiple of p = n_rows * n_cols |
| PlotLayout.OverrunExample | src/pybispectra/utils/_plot.py:351-354 | three nodes on a 1 x 2 grid open two figures, and the fourth slot reads past the nodes |
| PlotLayout.PlotResults | src/pybispectra/utils/_plot.py:348-395 | the corrected loop draws node k on figure k / p, slot k % p, always within the opened figures and slots |

## Left out

- The PPC cell formula (`np.abs`, `np.exp`, `np.angle` in degrees, the epoch mean and the division) is floating-point complex arithmetic. It is the parameter `ppcValue`. The value range [0, 1], a zero f1 and a zero denominator are not modelled.
- `numba.njit`, the progress bar and `verbose` printing are left out. They do not affect results.
- `pqdm`'s worker processes and `n_jobs` are concurrency. The fan-out is a sequential, order-preserving map in which the first failing connection aborts the call. pqdm's own exception handling is not modelled.
- `_Process` (`_sort_indices`, `_sort_freqs`, `_sort_parallelisation`, the base `_reset_attrs`), `Results` and `fast_find_first` are not part of this model:
  - `PpcKernel.Ppc.Compute` takes the outcome of input sorting as an argument;
  - `Results` is a plain record;
  - `FindFirst` is a linear scan with the same first-position contract; it does not model how `fast_find_first` searches.
- PpcKernel.ComputeConnection: when several requested frequencies are missing, it states only that the reported one is requested and not on the axis, not which one the source reports first.
- The FFT data, frequency axis and frequency grids are immutable sequence values, so "the kernel does not modify its inputs" holds by construction.
- NaN and infinities among the frequencies or times are not modelled (frequencies and times are `real`), and neither are NumPy dtypes.
- PlotInputs.SortTimes: a `times` entry that is neither a number nor None is modelled as a TypeError. NumPy broadcasting of array-like entries is not modelled.
- All matplotlib work is user interface: figure and axis creation, `pcolormesh`, colour bars, ticks, titles, `_mark_delay`, `_set_axis_ticks` and `plt.show`. `PlotLayout.CreatePlots` keeps only the number of figures and subplots.
- The `_plot_results` loops of `_PlotTDE` (`_plot.py:565-609`) and `_PlotWaveShape` (`_plot.py:962-1052`) use the same counters as `_PlotCFC`. `PlotLayout.PlotResultsAsWritten` models the counters once, for all three.
- `src/pybispectra/test_pac.py` is a script on random data that asserts nothing. It is not part of this model.
- `compute` clears the stored grids before input sorting (`ppc.py:93`), so a call whose sorting fails also leaves no grids.
- A failing connection is reported by the missing frequency, not by the connection's position.
- PpcKernel.Ppc.Compute: on a sorting failure it promises that `results`, `indices`, `f1` and `f2` keep their old values. That rests on two assumptions about `_Process`, which is not part of this model: the base `_reset_attrs` (`ppc.py:110`) clears none of these fields, and `_sort_indices`/`_sort_freqs` store nothing before they raise.
- PpcKernel.Ppc.ResetAttrs: clears only `_ppc`; whatever the base `_reset_attrs` (`ppc.py:110`) resets is not modelled.
- Two exception messages are raised by Python or NumPy themselves, not by the code, and are modelled by a shortened form: `len()` of an object without a length (for colour-bar limits) and the unsupported `-` between a time entry and the stored times.

## Findings

| source | as written | input that shows it | evidently intended | confidence | as-written member | corrected member |
|---|---|---|---|---|---|---|
| src/pybispectra/utils/_plot.py:351-354 | `_plot_results` visits every slot of every opened figure and reads `nodes[plot_n]` in each, so it reads past the last node whenever `len(nodes)` is not a multiple of `n_rows * n_cols` (IndexError) | `nodes = [0, 1, 2]`, `n_rows = 1`, `n_cols = 2`: two figures are opened and the fourth slot reads `nodes[3]` | stop after the last node and leave the remaining slots of the last figure empty | not executed | PlotLayout.PlotResultsAsWritten, PlotLayout.OverrunExample | PlotLayout.PlotResults |
