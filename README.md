# seglearn time-series container and input utilities in Dafny

This project models two parts of seglearn.

The container `TS_Data` (seglearn/base.py) holds N time series. Beside each series it keeps
an optional context row, a timestamp vector and a serial number. It covers:

- the constructor with its defaults;
- `from_df` over an ordered table of named columns;
- `__getitem__` with an index sequence (numpy fancy indexing, negative indices included);
- `__len__`;
- the cursor step of `__next__`.

The utilities (seglearn/util.py) cover:

- `get_ts_data_parts`, which splits a batch into series and context;
- `check_ts_data`, which validates how the targets are shaped;
- `ts_stats`, which computes whole-batch and per-class duration statistics. The model follows
  the exceptions numpy raises along the way.

Layout:

- `common.dfy` (module `Common`): `Option`, `Result`, `Outcome` and the exception classes.
- `base.dfy` (module `Base`): the container.
  - The arrays it holds, as a value, are `Parts`.
  - `Init` is what `__init__` stores.
  - `Select` is `__getitem__`.
  - `ReadTable` and `FromTable` are `from_df`.
  - The class `TSData` has the same fields as the Python object (`index` is the mutable
    cursor). Its methods are tied to those functions.
- `util.dfy` (module `Util`): the three utilities.
  - `ts_stats` is split into the error chain (`Summarize`), the whole-batch table (`Totals`)
    and the per-class table (`ByClass`).

Modelling choices:

- Sample values are exact reals.
- A table cell or array element is a `Cell`: a number, or a one-dimensional array, as
  `np.atleast_1d` sees it.
- Durations are exact reals: length / fs, for fs > 0.
- Integer labels are unbounded `int`s.

## Model

| member | source | states |
|---|---|---|
| Base.AsArray | seglearn/base.py:29 | `np.atleast_1d` of a cell: a number becomes a one-element array holding it, and an array is kept as it is. |
| Base.Iota | seglearn/base.py:32-33 | `np.arange(n)` has max(n, 0) entries and entry i is i. |
| Base.DefaultTimestamps | seglearn/base.py:32 | One timestamp vector per series, as long as its series, holding 0, 1, 2, and so on. |
| Base.DefaultSernum | seglearn/base.py:33 | N serial numbers, where number i is i. |
| Base.Init | seglearn/base.py:27-33 | Series and context are stored as given. Supplied timestamps and sernum are kept. Missing timestamps default to 0..len(ts[i])-1 for each series i, and missing sernum defaults to 0..N-1. |
| Base.InitAligned | seglearn/base.py:28-33 | A new container has one entry per series in every array iff each supplied context, timestamps and sernum has length N. The defaults always do. |
| Base.Take | seglearn/base.py:57-60 | `a[idx]` succeeds iff every index k satisfies -len <= k < len. The result has len(idx) entries, and entry k is `a[idx[k]]` with negative indices counted from the end. |
| Base.Select | seglearn/base.py:56-62 | Indexing succeeds iff every index is in range for ts_data, timestamps, sernum and the context (when there is one). Otherwise it raises IndexError. The result has len(idx) entries in every array. Entry k of each array is that array's element at idx[k], with a negative index counted from that array's own end. On an aligned container these are the same position. Context is present iff it was. |
| Base.SelectAllInOrder | seglearn/base.py:56-62 | Indexing an aligned container with 0..N-1 gives back the same ts_data, context, timestamps and sernum. |
| Base.SelectTwice | seglearn/base.py:56-62 | For any container, whatever the lengths of its arrays: when indexing with i and then with j succeeds, it equals indexing once with the composed index sequence. So the pairing of series, context, timestamps and sernum survives any chain of selections. |
| Base.Find | seglearn/base.py:40-42 | `df[name]` finds a column iff a column of that name exists, and the column found has that name. |
| Base.ContextColumns | seglearn/base.py:43-45 | The remaining columns are exactly those whose name is none of ts_data, timestamps and sernum. |
| Base.ContextColumnsAppend | seglearn/base.py:45 | Dropping the reserved columns keeps the remaining columns in their original order. |
| Base.ContextRows | seglearn/base.py:46 | `np.array` of the remaining columns has one row per table row, and row i holds the i-th cell of each column in order. |
| Base.ReadTable | seglearn/base.py:39-47 | Raises KeyError iff there is no ts_data column. Otherwise ts_data, timestamps and sernum come row by row from their columns (the last two only when present). Context is row i of every other column in order. Context is None iff no such column remains or the table has no rows. |
| Base.FromTable | seglearn/base.py:39-48 | Raises KeyError iff ts_data is missing. Raises TypeError iff ts_data is present, there is no timestamps column and some ts_data cell is a number, because `len(ts_data[i])` fails on it (base.py:32). Otherwise the container has one aligned entry per row, with default sernum 0..N-1 and default timestamp vectors as long as their series. |
| Base.ScalarSeriesWithoutTimestamps | seglearn/base.py:32-40 | A one-row table with a number as its ts_data cell and no timestamps column raises TypeError. |
| Base.TSData.constructor | seglearn/base.py:27-36 | The fields hold what `Init` computes, N = len(ts_data), shape = [N] and index = 0. |
| Base.TSData.Length | seglearn/base.py:71-72 | `len` is the number of series, and shape is [len]. |
| Base.TSData.Next | seglearn/base.py:64-67 | Signals StopIteration exactly when index == N. Otherwise index goes up by one. No other field changes, and 0 <= index <= N is kept. |
| Base.TSData.Drain | seglearn/base.py:64-67 | Stepping the cursor of a valid container from index 0 until `__next__` signals StopIteration takes exactly N steps and leaves the cursor at N, so an empty container is exhausted at once. No array changes. |
| Base.TSData.GetItem | seglearn/base.py:56-62 | Returns a fresh container whose arrays are `Select` of this one, or IndexError exactly when `Select` raises. |
| Base.TSData.FromDf | seglearn/base.py:38-48 | Returns a fresh container whose arrays are `FromTable` of the table, or raises exactly when `FromTable` does, with the same exception. |
| Util.GetTsDataParts | seglearn/util.py:29-32 | A container yields its ts_data and context_data. Any other input yields itself with context None. |
| Util.PartsOfNewContainer | seglearn/util.py:29-30 | Splitting a container gives back the series and context it was built from. |
| Util.Lengths | seglearn/util.py:48 | Entry i is the length of series i. |
| Util.TargetLengths | seglearn/util.py:52 | Entry i is `len(np.atleast_1d(y[i]))`: 1 for a single label, otherwise the number of labels. |
| Util.TargetLength | seglearn/util.py:52 | `len(np.atleast_1d(y[i]))`: 1 for a single label, otherwise the number of labels. |
| Util.CountOnes | seglearn/util.py:55 | The count is at most the number of entries, and it equals that number iff every entry is 1. |
| Util.CountEqual | seglearn/util.py:57 | The count is at most the number of positions, and it equals that number iff the arrays agree everywhere. |
| Util.CheckTsData | seglearn/util.py:47-60 | Without y nothing is raised. With y, a length mismatch raises AssertionError. With matching lengths, the check passes iff every label has length 1 or every label's length equals its series length, and raises TypeError otherwise. An empty batch passes. |
| Util.Entries | seglearn/util.py:47-48 | Reading `X[i]` for every i succeeds for any non-container input. For a container, `len(X)` is its field N (seglearn/base.py:71-72). Reading succeeds iff indexing position i succeeds for every i below N, and it raises IndexError otherwise. On success the entries are the first N series. |
| Util.CheckInput | seglearn/util.py:47-60 | check_ts_data on an input raises IndexError when an entry cannot be read. Otherwise it is the series check. |
| Util.CheckAlignedContainer | seglearn/util.py:47-50 | A valid, aligned container has every entry readable and yields all its series, so without y it is accepted. |
| Util.MixedRegimesRejected | seglearn/util.py:55-60 | Series of lengths 5 and 7 labelled with 1 and 7 labels are refused with TypeError, although each label would pass one regime on its own. |
| Util.MaxInt | seglearn/util.py:96 | `np.max(y)` is an element of y and no element exceeds it. |
| Util.Sum | seglearn/util.py:110 | none: defined by its body (`np.sum` over exact reals). SumNonNegative, SumDurations and ClassDurationsSum state its properties. |
| Util.SumNonNegative | seglearn/util.py:110 | A sum of non-negative terms, such as durations, is not negative. |
| Util.Min | seglearn/util.py:115 | `np.min` is an element and bounds every element from below. |
| Util.Max | seglearn/util.py:115 | `np.max` is an element and bounds every element from above. |
| Util.Durations | seglearn/util.py:106 | `Ti` has one entry per series: its length over fs, which is never negative. |
| Util.ClassDurations | seglearn/util.py:107-108 | `Ti[y == c]` has as many entries as there are series labelled c. It holds the duration of each of them, and only such durations. |
| Util.Positions | seglearn/util.py:107 | The positions where the mask `y == c` is true, in increasing order: each is labelled c and every position labelled c is listed. |
| Util.ClassDurationsInOrder | seglearn/util.py:107-108 | `Ti[y == c]` is exactly the durations at the positions labelled c, in batch order, as a boolean mask selects them. |
| Util.Masked | seglearn/util.py:107-108 | The durations with every series outside class c replaced by zero. |
| Util.ClassLengths | seglearn/util.py:106-108 | The lengths with every series outside class c replaced by zero. |
| Util.ClassDurationsSum | seglearn/util.py:108-119 | The sum of `Ti[y == c]` equals the sum of the durations with the other classes zeroed. |
| Util.MaskedDurations | seglearn/util.py:106-108 | Zeroing the other classes and dividing by fs can be done in either order. |
| Util.ClassDurationsSumLengths | seglearn/util.py:106-119 | The sum of `Ti[y == k]` is the summed length of the series labelled k, over fs. |
| Util.ClassCounts | seglearn/util.py:118 | One count per class 0..C-1 (none when C <= 0). |
| Util.ClassTotals | seglearn/util.py:119 | One total per class 0..C-1. |
| Util.ClassMeans | seglearn/util.py:120 | One mean per class 0..C-1, defined only when every class has a series. |
| Util.ClassMins | seglearn/util.py:122 | One minimum per class 0..C-1, defined only when every class has a series. |
| Util.ClassMaxs | seglearn/util.py:123 | One maximum per class 0..C-1, defined only when every class has a series. |
| Util.CountLabel | seglearn/util.py:118 | none: defined by its body (`len(Tic[i])`). CountLabelIsCardinality states its value. |
| Util.CountLabelIsCardinality | seglearn/util.py:118 | The count of class c is the number of positions i with y[i] == c. |
| Util.SumDurations | seglearn/util.py:106-110 | The sum of the durations len(Xt[i]) / fs is the total length over fs. |
| Util.ClassCountsSum | seglearn/util.py:107-118 | When every label is in 0..C-1, the per-class counts add up to the number of series. |
| Util.ClassTotalsSum | seglearn/util.py:107-119 | When every label is in 0..C-1, the per-class totals add up to the whole total. |
| Util.Totals | seglearn/util.py:106-115 | `results['total']` reports N > 0 series and S context variables, and its range runs from a non-negative minimum to a maximum no smaller. |
| Util.TotalsCounts | seglearn/util.py:91-100 | n_series is N and n_context_vars is S. n_classes is max(y) + 1: every label is below it, and some label equals n_classes - 1. |
| Util.TotalsTime | seglearn/util.py:106-112 | Total_Time is the total length over fs. |
| Util.TotalsMean | seglearn/util.py:113 | Series_Time_Mean times N is Total_Time. |
| Util.TotalsRange | seglearn/util.py:115 | Series_Time_Range bounds every series' duration, and both ends are durations of some series. |
| Util.ReportedLabels | seglearn/util.py:97-98 | The given class labels when there are some, otherwise `np.arange(C)`: C entries (none when C <= 0), with entry k equal to k. |
| Util.ByClass | seglearn/util.py:96-98 | In `results['by_class']`, Class_labels are the given labels, or 0..C-1 when none are given. Every per-class array has one entry per class 0..C-1 (none when C <= 0). |
| Util.ByClassCounts | seglearn/util.py:118 | The n_series of class k is the number of series labelled k, and it is not zero. |
| Util.ByClassTotals | seglearn/util.py:106-119 | The Total_Time of class k is the summed length of the series labelled k (every other series counted as 0), over fs. |
| Util.ByClassMeans | seglearn/util.py:120 | The Series_Time_Mean of class k is its total over its non-zero count. |
| Util.ClassRange | seglearn/util.py:122-123 | Each class's min and max bound the durations of that class, and both are attained by a series of the class. |
| Util.ByClassRange | seglearn/util.py:122-123 | Series_Time_Min and Series_Time_Max of class k bound the duration len(Xt[i]) / fs of every series labelled k, and both are attained within the class. |
| Util.ReportConservation | seglearn/util.py:107-119 | With no negative label, the per-class counts sum to n_series and the per-class totals sum to Total_Time. |
| Util.Summarize | seglearn/util.py:91-126 | The error chain of ts_stats after the split raises only IndexError or ValueError. It succeeds iff the context is not empty, y is not empty, the batch is not empty and the batch is reportable. On success it reports N series and max(y) + 1 classes. |
| Util.TsStats | seglearn/util.py:64-128 | `ts_stats` raises only IndexError or ValueError. On success every entry of the input was readable, y is not empty, and n_series is the number of series of the input, which is positive. |
| Util.SummarizeOutcome | seglearn/util.py:91-123 | Raises, in this order: IndexError for an empty context (`Xs[0]`); ValueError for empty y (`np.max`); IndexError for an empty batch (`Xt[0]`); IndexError when C >= 1 and len(y) != N (the class mask); ValueError when a class in 0..C-1 has no series (`np.min`). It succeeds exactly when none of these holds, and then returns the report with S = width of the first context row. |
| Util.TsStatsOutcome | seglearn/util.py:88-89 | ts_stats summarizes a plain batch with no context, and a valid, aligned container with its own context. A container with an unreadable entry below N raises IndexError. |
| Util.ExampleReport | seglearn/util.py:106-123 | Series of lengths 10, 10, 20, 20 with labels 0, 0, 1, 1 at fs = 1 give the report below. |
| Util.TsStatsExample | seglearn/util.py:88-128 | That batch gives 4 series, 2 classes, a total of 60 and a mean of 15. Per-class counts are [2, 2], totals [20, 40] and means [10, 20]. |

## Left out

- The return value of `__next__` (seglearn/base.py:68) is left out.
  - The line calls `TS_Data(...)` with a single argument while `context_data` is required, so every call that passes the guard raises TypeError. When the advanced index equals N, it raises IndexError first.
  - It also reads the element after the cursor, not the one at the cursor.
  - Only the guard and the increment (lines 64-67) are modelled. The commented-out line at seglearn/base.py:69 builds the return value from `ts_data[index]` and `context_data[index]`, which suggests a single series was meant to be returned. The code as written never returns one.
- Single-integer indexing with `__getitem__` is left out. It rebuilds a container whose N is the length of that one series, which is a numpy scalar-indexing artefact. Only its range check is used, in `Util.Entries`.
- `concat` (seglearn/base.py:50-51) is an empty stub.
- `__iter__` (seglearn/base.py:53-54) returns the container itself. The cursor lives on the object, as in `Base.TSData.Next`.
- NumPy coercion is not modelled:
  - `np.array` and `np.atleast_1d` on ragged or object data;
  - turning a list input into an array in `get_ts_data_parts`;
  - the `ndim`/`shape` probe for `n_TS_vars` (seglearn/util.py:101-104). Only the IndexError that `Xt[0]` raises on an empty batch is modelled.
- Series values are reals. No numeric dtype is modelled.
- `Base.ReadTable`: in the source, `np.atleast_1d` applies to the whole column array (seglearn/base.py:29), not to each cell. When a timestamps column is present, a ts_data cell that is a number becomes a one-sample series in the model, where the source keeps the number. Without a timestamps column the source raises TypeError, and `Base.FromTable` models that case. A timestamps cell that is a number likewise becomes a one-sample timestamp vector in the model, where the source keeps the number (seglearn/base.py:41, 31).
- `Base.ReadTable`: when a table has two columns with the same reserved name, the first is taken. pandas would return a sub-frame there.
- The pandas `DataFrame`, `in` and `drop` machinery is replaced by an ordered list of named columns with a row count.
- The timestamps length is not validated against the series, just as in the source. `Aligned` names the case where it matches.
- `Util.CheckTsData` works on the series of the batch. For a container, `X[i]` is single-integer indexing, and `Util.Entries` models only its IndexError.
- `Util.TsStats` takes y as a sequence of integers, read as a numpy array. A plain Python list makes `y == i` a single boolean, which the model does not follow.
- `Util.TsStats` does not model fs <= 0 (it is a precondition).
- `Series_Time_Std` (seglearn/util.py:114, 121) needs a square root over floats. It is left out of both tables.
- Float64 rounding is not modelled: durations, sums and means are exact reals.
- `Util.ByClassMeans`: for an empty class, `np.mean` (seglearn/util.py:120) runs before `np.min` (seglearn/util.py:122) and computes NaN. The ValueError that `np.min` then raises discards it, so no returned report ever holds that NaN (`Util.SummarizeOutcome`). The NaN itself is not modelled.
- The plotting example (examples/plot_predict_series.py) is not part of this model. It depends on matplotlib, sklearn and pipeline classes.
