/** Input checking and summary statistics for batches of series (seglearn/util.py):
    splitting a batch into series and context, validating label shapes, and the
    whole-batch and per-class duration statistics. */
module Util {
  import opened Common
  import opened Base

  // ---------------------------------------------------------------------------
  // get_ts_data_parts

  /** An input batch: a `TS_Data` container, or any other sequence of series. */
  datatype Data = Container(obj: TSData) | Plain(series: seq<seq<real>>)

  /** The objects an input's parts are read from. */
  function Footprint(x: Data): set<object>
  {
    if x.Container? then {x.obj} else {}
  }

  /** `get_ts_data_parts`: a container yields its series and its context; any other
      input is the series itself, with no context. */
  function GetTsDataParts(x: Data): (r: (seq<seq<real>>, Option<seq<seq<Cell>>>))
    reads Footprint(x)
    ensures x.Container? ==> r.0 == x.obj.tsData && r.1 == x.obj.contextData
    ensures x.Plain? ==> r.0 == x.series && r.1.None?
  {
    match x
    case Container(c) => (c.tsData, c.contextData)
    case Plain(s) => (s, None)
  }

  /** Splitting a container gives back the series and context it was built from. */
  lemma PartsOfNewContainer(c: TSData, ts: seq<seq<real>>, context: Option<seq<seq<Cell>>>,
                            timestamps: Option<seq<seq<real>>>, sernum: Option<seq<Cell>>)
    requires c.View() == Init(ts, context, timestamps, sernum)
    ensures GetTsDataParts(Container(c)) == (ts, context)
  {
  }

  // ---------------------------------------------------------------------------
  // check_ts_data

  /** A target entry: one label, or an array of labels. */
  datatype Target = Label(v: real) | Labels(vs: seq<real>)

  /** `len(np.atleast_1d(t))`: a single label counts as one. */
  function TargetLength(t: Target): (r: nat)
    ensures t.Label? ==> r == 1
    ensures t.Labels? ==> r == |t.vs|
  {
    match t
    case Label(_) => 1
    case Labels(vs) => |vs|
  }

  /** The length of every series of a batch. */
  function Lengths(xs: seq<seq<real>>): (r: seq<nat>)
    ensures |r| == |xs| && forall i :: 0 <= i < |xs| ==> r[i] == |xs[i]|
  {
    seq(|xs|, i requires 0 <= i < |xs| => |xs[i]|)
  }

  /** The length of every target entry. */
  function TargetLengths(y: seq<Target>): (r: seq<nat>)
    ensures |r| == |y| && forall i :: 0 <= i < |y| ==> r[i] == TargetLength(y[i])
  {
    seq(|y|, i requires 0 <= i < |y| => TargetLength(y[i]))
  }

  /** `np.count_nonzero(ns == 1)`. */
  function CountOnes(ns: seq<nat>): (r: nat)
    ensures r <= |ns|
    ensures r == |ns| <==> forall i :: 0 <= i < |ns| ==> ns[i] == 1
  {
    if ns == [] then 0
    else CountOnes(ns[..|ns| - 1]) + (if ns[|ns| - 1] == 1 then 1 else 0)
  }

  /** `np.count_nonzero(a == b)` for arrays of one length. */
  function CountEqual(a: seq<nat>, b: seq<nat>): (r: nat)
    requires |a| == |b|
    ensures r <= |a|
    ensures r == |a| <==> forall i :: 0 <= i < |a| ==> a[i] == b[i]
  {
    if a == [] then 0
    else CountEqual(a[..|a| - 1], b[..|b| - 1]) + (if a[|a| - 1] == b[|b| - 1] then 1 else 0)
  }

  /** One label per series. */
  predicate PerSeriesLabels(y: seq<Target>)
  {
    forall i :: 0 <= i < |y| ==> TargetLength(y[i]) == 1
  }

  /** One label per time step of every series. */
  predicate PerStepLabels(xs: seq<seq<real>>, y: seq<Target>)
    requires |xs| == |y|
  {
    forall i :: 0 <= i < |y| ==> TargetLength(y[i]) == |xs[i]|
  }

  /** `check_ts_data(X, y)`: without targets nothing is checked; with targets, their
      count must be the number of series (AssertionError), and then either every
      series has one label or every series has one label per time step (TypeError). */
  function CheckTsData(xs: seq<seq<real>>, y: Option<seq<Target>>): (r: Outcome)
    ensures y.None? ==> r == Pass
    ensures y.Some? && |y.value| != |xs| ==> r == Fail(AssertionError)
    ensures y.Some? && |y.value| == |xs| ==>
      r == if PerSeriesLabels(y.value) || PerStepLabels(xs, y.value) then Pass else Fail(TypeError)
  {
    if y.None? then Pass
    else if |xs| != |y.value| then Fail(AssertionError)
    else
      var ntx := Lengths(xs);
      var nty := TargetLengths(y.value);
      if CountOnes(nty) == |xs| then Pass
      else if CountEqual(nty, ntx) == |xs| then Pass
      else Fail(TypeError)
  }

  /** `len(X[i])` for every i below `len(X)`: the entries check_ts_data reads. For a
      container, `len(X)` is its field N and `X[i]` indexes all four of its arrays at i,
      so it raises IndexError when its series, context, timestamps or sernum array is
      shorter than N. */
  function Entries(x: Data): (r: Result<seq<seq<real>>>)
    reads Footprint(x)
    ensures x.Plain? ==> r == Ok(x.series)
    ensures x.Container? ==>
      (r.Ok? <==> forall i :: 0 <= i < x.obj.n ==> Select(x.obj.View(), [i]).Ok?)
    ensures x.Container? && r.Ok? ==> x.obj.n <= |x.obj.tsData| && r.value == x.obj.tsData[..x.obj.n]
    ensures r.Err? ==> r.error == IndexError
  {
    match x
    case Plain(s) => Ok(s)
    case Container(c) =>
      var n := c.n;
      if |c.tsData| < n then
        assert !Select(c.View(), [|c.tsData|]).Ok?;
        Err(IndexError)
      else if |c.timestamps| < n then
        assert !Select(c.View(), [|c.timestamps|]).Ok?;
        Err(IndexError)
      else if |c.sernum| < n then
        assert !Select(c.View(), [|c.sernum|]).Ok?;
        Err(IndexError)
      else if c.contextData.Some? && |c.contextData.value| < n then
        assert !Select(c.View(), [|c.contextData.value|]).Ok?;
        Err(IndexError)
      else
        Ok(c.tsData[..n])
  }

  /** `check_ts_data(X, y)` on an input batch: its entries are read first, then the
      series and the targets are checked. */
  function CheckInput(x: Data, y: Option<seq<Target>>): (r: Outcome)
    reads Footprint(x)
    ensures Entries(x).Err? ==> r == Fail(IndexError)
    ensures Entries(x).Ok? ==> r == CheckTsData(Entries(x).value, y)
  {
    match Entries(x)
    case Err(e) => Fail(e)
    case Ok(xs) => CheckTsData(xs, y)
  }

  /** A valid container (N = len(ts_data)) whose four arrays are aligned (every container
      the constructor builds with default timestamps and sernum) has every entry readable, so without targets
      check_ts_data accepts it. */
  lemma CheckAlignedContainer(c: TSData)
    requires c.Valid() && Aligned(c.View())
    ensures Entries(Container(c)) == Ok(c.tsData)
    ensures CheckInput(Container(c), None) == Pass
  {
    assert c.tsData[..c.n] == c.tsData;
  }

  /** A batch mixing the two label regimes is refused even though each series on its own
      would pass one of them: series of lengths 5 and 7 labelled with 1 and 7 labels. */
  lemma MixedRegimesRejected(s5: seq<real>, s7: seq<real>, a: real, b: seq<real>)
    requires |s5| == 5 && |s7| == 7 && |b| == 7
    ensures CheckTsData([s5, s7], Some([Label(a), Labels(b)])) == Fail(TypeError)
  {
    var xs := [s5, s7];
    var y := [Label(a), Labels(b)];
    assert TargetLength(y[1]) == 7;
    assert TargetLength(y[0]) == 1 != |xs[0]|;
  }

  // ---------------------------------------------------------------------------
  // Sums, extremes and counts used by ts_stats

  /** `np.sum` over exact reals. */
  function Sum(s: seq<real>): real
  {
    if s == [] then 0.0 else Sum(s[..|s| - 1]) + s[|s| - 1]
  }

  /** A sum of non-negative terms, such as durations, is not negative. */
  lemma {:induction false} SumNonNegative(s: seq<real>)
    requires forall i :: 0 <= i < |s| ==> s[i] >= 0.0
    ensures Sum(s) >= 0.0
  {
    if s != [] {
      SumNonNegative(s[..|s| - 1]);
    }
  }

  /** The sum of a sequence of naturals. */
  function SumNat(s: seq<nat>): nat
  {
    if s == [] then 0 else SumNat(s[..|s| - 1]) + s[|s| - 1]
  }

  /** `np.min`: the least element (ValueError on an empty array is the caller's case). */
  function Min(s: seq<real>): (r: real)
    requires s != []
    ensures r in s
    ensures forall i :: 0 <= i < |s| ==> r <= s[i]
  {
    if |s| == 1 then s[0]
    else
      var m := Min(s[..|s| - 1]);
      if s[|s| - 1] < m then s[|s| - 1] else m
  }

  /** `np.max` over reals. */
  function Max(s: seq<real>): (r: real)
    requires s != []
    ensures r in s
    ensures forall i :: 0 <= i < |s| ==> s[i] <= r
  {
    if |s| == 1 then s[0]
    else
      var m := Max(s[..|s| - 1]);
      if s[|s| - 1] > m then s[|s| - 1] else m
  }

  /** `np.max` over integer labels. */
  function MaxInt(s: seq<int>): (r: int)
    requires s != []
    ensures r in s
    ensures forall i :: 0 <= i < |s| ==> s[i] <= r
  {
    if |s| == 1 then s[0]
    else
      var m := MaxInt(s[..|s| - 1]);
      if s[|s| - 1] > m then s[|s| - 1] else m
  }

  /** Per-series durations `len(Xt[i]) / fs`. */
  function Durations(lengths: seq<nat>, fs: real): (ti: seq<real>)
    requires fs > 0.0
    ensures |ti| == |lengths|
    ensures forall i :: 0 <= i < |lengths| ==> ti[i] == lengths[i] as real / fs && ti[i] >= 0.0
  {
    seq(|lengths|, i requires 0 <= i < |lengths| => lengths[i] as real / fs)
  }

  /** The number of series whose label is c. */
  function CountLabel(y: seq<int>, c: int): nat
  {
    if y == [] then 0 else CountLabel(y[..|y| - 1], c) + (if y[|y| - 1] == c then 1 else 0)
  }

  /** `Ti[y == c]`: the durations of the series labelled c, in batch order. */
  function ClassDurations(ti: seq<real>, y: seq<int>, c: int): (r: seq<real>)
    requires |ti| == |y|
    ensures |r| == CountLabel(y, c)
    ensures forall i :: 0 <= i < |y| && y[i] == c ==> ti[i] in r
    ensures forall t :: t in r ==> exists i :: 0 <= i < |y| && y[i] == c && ti[i] == t
  {
    if ti == [] then []
    else
      var m := |ti| - 1;
      ClassDurations(ti[..m], y[..m], c) + (if y[m] == c then [ti[m]] else [])
  }

  /** The positions labelled c, in increasing order: where the mask `y == c` is true. */
  function Positions(y: seq<int>, c: int): (r: seq<nat>)
    ensures forall k :: 0 <= k < |r| ==> r[k] < |y| && y[r[k]] == c
    ensures forall i :: 0 <= i < |y| && y[i] == c ==> i in r
    ensures forall k, l :: 0 <= k < l < |r| ==> r[k] < r[l]
  {
    if y == [] then []
    else Positions(y[..|y| - 1], c) + (if y[|y| - 1] == c then [|y| - 1] else [])
  }

  /** The durations with every series outside class c set to zero. */
  function Masked(ti: seq<real>, y: seq<int>, c: int): (r: seq<real>)
    requires |ti| == |y|
    ensures |r| == |ti| && forall i :: 0 <= i < |ti| ==> r[i] == if y[i] == c then ti[i] else 0.0
  {
    seq(|ti|, i requires 0 <= i < |ti| => if y[i] == c then ti[i] else 0.0)
  }

  /** The lengths with every series outside class c set to zero. */
  function ClassLengths(lengths: seq<nat>, y: seq<int>, c: int): (r: seq<nat>)
    requires |lengths| == |y|
    ensures |r| == |lengths| && forall i :: 0 <= i < |lengths| ==> r[i] == if y[i] == c then lengths[i] else 0
  {
    seq(|lengths|, i requires 0 <= i < |lengths| => if y[i] == c then lengths[i] else 0)
  }

  /** The number of classes C; `range(C)` is empty when C <= 0. */
  function NumClasses(c: int): nat
  {
    if c < 0 then 0 else c
  }

  /** Every class 0..C-1 has at least one series. */
  predicate AllClassesPresent(y: seq<int>, c: int)
  {
    forall k :: 0 <= k < c ==> CountLabel(y, k) > 0
  }

  /** Per-class series counts. */
  function ClassCounts(y: seq<int>, c: int): (r: seq<nat>)
    ensures |r| == NumClasses(c)
  {
    seq(NumClasses(c), k => CountLabel(y, k))
  }

  /** Per-class total durations. */
  function ClassTotals(ti: seq<real>, y: seq<int>, c: int): (r: seq<real>)
    requires c <= 0 || |ti| == |y|
    ensures |r| == NumClasses(c)
  {
    seq(NumClasses(c), k requires 0 <= k < NumClasses(c) => Sum(ClassDurations(ti, y, k)))
  }

  /** Per-class mean durations. */
  function ClassMeans(ti: seq<real>, y: seq<int>, c: int): (r: seq<real>)
    requires c <= 0 || (|ti| == |y| && AllClassesPresent(y, c))
    ensures |r| == NumClasses(c)
  {
    seq(NumClasses(c), k requires 0 <= k < NumClasses(c) =>
      Sum(ClassDurations(ti, y, k)) / (CountLabel(y, k) as real))
  }

  /** Per-class shortest durations. */
  function ClassMins(ti: seq<real>, y: seq<int>, c: int): (r: seq<real>)
    requires c <= 0 || (|ti| == |y| && AllClassesPresent(y, c))
    ensures |r| == NumClasses(c)
  {
    seq(NumClasses(c), k requires 0 <= k < NumClasses(c) => Min(ClassDurations(ti, y, k)))
  }

  /** Per-class longest durations. */
  function ClassMaxs(ti: seq<real>, y: seq<int>, c: int): (r: seq<real>)
    requires c <= 0 || (|ti| == |y| && AllClassesPresent(y, c))
    ensures |r| == NumClasses(c)
  {
    seq(NumClasses(c), k requires 0 <= k < NumClasses(c) => Max(ClassDurations(ti, y, k)))
  }

  // ---------------------------------------------------------------------------
  // ts_stats

  /** The class labels reported: those given, or 0..C-1. */
  datatype ClassLabels = Named(names: seq<string>) | Numbered(ids: seq<int>)

  /** `results['total']` (without `n_TS_vars` and `Series_Time_Std`). */
  datatype TotalStats = TotalStats(nSeries: nat, nClasses: int, nContextVars: nat,
                                   totalTime: real, meanTime: real, timeRange: (real, real))

  /** `results['by_class']` (without `Series_Time_Std`), one entry per class. */
  datatype ClassStats = ClassStats(labels: ClassLabels, nSeries: seq<nat>, totalTime: seq<real>,
                                   meanTime: seq<real>, minTime: seq<real>, maxTime: seq<real>)

  datatype Stats = Stats(total: TotalStats, byClass: ClassStats)

  /** The labels ts_stats reports: `class_labels`, or `np.arange(C)` when none are given. */
  function ReportedLabels(classLabels: Option<seq<string>>, c: int): (r: ClassLabels)
    ensures classLabels.Some? ==> r == Named(classLabels.value)
    ensures classLabels.None? ==> r.Numbered? && |r.ids| == NumClasses(c) &&
                                  forall k :: 0 <= k < |r.ids| ==> r.ids[k] == k
  {
    if classLabels.Some? then Named(classLabels.value) else Numbered(Iota(c))
  }

  /** The conditions under which every reduction of ts_stats is defined once the batch
      and the targets are non-empty: either there is no class, or the class masks match
      the batch and no class in 0..C-1 is empty. */
  predicate Reportable(xt: seq<seq<real>>, y: seq<int>)
    requires y != []
  {
    MaxInt(y) < 0 || (|y| == |xt| && AllClassesPresent(y, MaxInt(y) + 1))
  }

  /** `results['total']` once every check has passed; s is the context width. */
  function Totals(xt: seq<seq<real>>, s: nat, y: seq<int>, fs: real): (r: TotalStats)
    requires fs > 0.0 && xt != [] && y != []
    ensures r.nSeries == |xt| > 0 && r.nContextVars == s
    ensures 0.0 <= r.timeRange.0 <= r.timeRange.1
  {
    var ti := Durations(Lengths(xt), fs);
    TotalStats(|xt|, MaxInt(y) + 1, s, Sum(ti), Sum(ti) / (|xt| as real), (Min(ti), Max(ti)))
  }

  /** `results['by_class']` once every check has passed. */
  function ByClass(xt: seq<seq<real>>, y: seq<int>, fs: real,
                   classLabels: Option<seq<string>>): (r: ClassStats)
    requires fs > 0.0 && y != [] && Reportable(xt, y)
    ensures r.labels == if classLabels.Some? then Named(classLabels.value) else Numbered(Iota(MaxInt(y) + 1))
    ensures |r.nSeries| == |r.totalTime| == |r.meanTime| == |r.minTime| == |r.maxTime| ==
            NumClasses(MaxInt(y) + 1)
  {
    var c := MaxInt(y) + 1;
    var ti := Durations(Lengths(xt), fs);
    ClassStats(ReportedLabels(classLabels, c), ClassCounts(y, c), ClassTotals(ti, y, c),
               ClassMeans(ti, y, c), ClassMins(ti, y, c), ClassMaxs(ti, y, c))
  }

  /** ts_stats after the input has been split into series xt and context xs, raising
      where numpy raises: IndexError for an empty context (`Xs[0]`), ValueError for empty
      targets (`np.max`), IndexError for an empty batch (`Xt[0]`), IndexError when the
      class masks do not match the batch, and ValueError when some class in 0..C-1 has
      no series (`np.min` of an empty array). */
  function Summarize(xt: seq<seq<real>>, xs: Option<seq<seq<Cell>>>, y: seq<int>, fs: real,
                     classLabels: Option<seq<string>>): (r: Result<Stats>)
    requires fs > 0.0
    ensures r.Err? ==> r.error == IndexError || r.error == ValueError
    ensures r.Ok? <==> xs != Some([]) && y != [] && xt != [] && Reportable(xt, y)
    ensures r.Ok? ==> r.value.total.nSeries == |xt| && r.value.total.nClasses == MaxInt(y) + 1
  {
    if xs.Some? && xs.value == [] then Err(IndexError)
    else if y == [] then Err(ValueError)
    else if xt == [] then Err(IndexError)
    else if MaxInt(y) >= 0 && |y| != |xt| then Err(IndexError)
    else if !AllClassesPresent(y, MaxInt(y) + 1) then Err(ValueError)
    else Ok(Stats(Totals(xt, if xs.Some? then |xs.value[0]| else 0, y, fs), ByClass(xt, y, fs, classLabels)))
  }

  /** `ts_stats(Xt, y, fs, class_labels)`: the check of the input without targets, the
      split into series and context, then the summary. */
  function TsStats(x: Data, y: seq<int>, fs: real, classLabels: Option<seq<string>>): (r: Result<Stats>)
    requires fs > 0.0
    reads Footprint(x)
    ensures r.Err? ==> r.error == IndexError || r.error == ValueError
    ensures r.Ok? ==> Entries(x).Ok? && y != [] && r.value.total.nSeries == |GetTsDataParts(x).0| > 0
  {
    match CheckInput(x, None)
    case Fail(e) => Err(e)
    case Pass => Summarize(GetTsDataParts(x).0, GetTsDataParts(x).1, y, fs, classLabels)
  }

  // ---------------------------------------------------------------------------
  // Lemmas about the summary

  /** The total duration is the total length divided by the sampling frequency. */
  lemma {:induction false} SumDurations(lengths: seq<nat>, fs: real)
    requires fs > 0.0
    ensures Sum(Durations(lengths, fs)) == SumNat(lengths) as real / fs
  {
    if lengths != [] {
      var m := |lengths| - 1;
      var d := Durations(lengths, fs);
      assert d[..m] == Durations(lengths[..m], fs);
      SumDurations(lengths[..m], fs);
    }
  }

  lemma {:induction false} SumPointwise(a: seq<real>, b: seq<real>, s: seq<real>)
    requires |a| == |b| == |s|
    requires forall k :: 0 <= k < |s| ==> s[k] == a[k] + b[k]
    ensures Sum(s) == Sum(a) + Sum(b)
  {
    if s != [] {
      var m := |s| - 1;
      SumPointwise(a[..m], b[..m], s[..m]);
    }
  }

  lemma {:induction false} SumNatPointwise(a: seq<nat>, b: seq<nat>, s: seq<nat>)
    requires |a| == |b| == |s|
    requires forall k :: 0 <= k < |s| ==> s[k] == a[k] + b[k]
    ensures SumNat(s) == SumNat(a) + SumNat(b)
  {
    if s != [] {
      var m := |s| - 1;
      SumNatPointwise(a[..m], b[..m], s[..m]);
    }
  }

  /** A sequence that is t at position l and zero elsewhere sums to t. */
  lemma {:induction false} SumOneHot(s: seq<real>, l: int, t: real)
    requires forall k :: 0 <= k < |s| ==> s[k] == if k == l then t else 0.0
    ensures Sum(s) == if 0 <= l < |s| then t else 0.0
  {
    if s != [] {
      SumOneHot(s[..|s| - 1], l, t);
    }
  }

  lemma {:induction false} SumNatOneHot(s: seq<nat>, l: int, t: nat)
    requires forall k :: 0 <= k < |s| ==> s[k] == if k == l then t else 0
    ensures SumNat(s) == if 0 <= l < |s| then t else 0
  {
    if s != [] {
      SumNatOneHot(s[..|s| - 1], l, t);
    }
  }

  /** When every label lies in 0..C-1, the per-class totals add up to the whole total. */
  lemma {:induction false} ClassTotalsSum(ti: seq<real>, y: seq<int>, c: int)
    requires |ti| == |y|
    requires forall i :: 0 <= i < |y| ==> 0 <= y[i] < c
    ensures Sum(ClassTotals(ti, y, c)) == Sum(ti)
  {
    var s := ClassTotals(ti, y, c);
    if ti == [] {
      SumOneHot(s, -1, 0.0);
    } else {
      var m := |ti| - 1;
      ClassTotalsSum(ti[..m], y[..m], c);
      var a := ClassTotals(ti[..m], y[..m], c);
      var b := seq(|s|, k => if k == y[m] then ti[m] else 0.0);
      forall k | 0 <= k < |s| ensures s[k] == a[k] + b[k] {
        var front := ClassDurations(ti[..m], y[..m], k);
        if y[m] == k {
          assert (front + [ti[m]])[..|front|] == front;
        } else {
          assert front + [] == front;
        }
      }
      SumPointwise(a, b, s);
      SumOneHot(b, y[m], ti[m]);
    }
  }

  /** When every label lies in 0..C-1, the per-class counts add up to the batch size. */
  lemma {:induction false} ClassCountsSum(y: seq<int>, c: int)
    requires forall i :: 0 <= i < |y| ==> 0 <= y[i] < c
    ensures SumNat(ClassCounts(y, c)) == |y|
  {
    var s := ClassCounts(y, c);
    if y == [] {
      SumNatOneHot(s, -1, 0);
    } else {
      var m := |y| - 1;
      ClassCountsSum(y[..m], c);
      var a := ClassCounts(y[..m], c);
      var b := seq(|s|, k => if k == y[m] then 1 else 0);
      SumNatPointwise(a, b, s);
      SumNatOneHot(b, y[m], 1);
    }
  }

  /** The count of a class is the number of positions carrying its label. */
  lemma {:induction false} CountLabelIsCardinality(y: seq<int>, c: int)
    ensures CountLabel(y, c) == |set i | 0 <= i < |y| && y[i] == c|
  {
    if y != [] {
      var m := |y| - 1;
      var front := y[..m];
      CountLabelIsCardinality(front, c);
      var before := set i | 0 <= i < |front| && front[i] == c;
      var now := set i | 0 <= i < |y| && y[i] == c;
      if y[m] == c {
        assert now == before + {m};
        assert m !in before;
      } else {
        assert now == before;
      }
    }
  }

  /** The whole-batch counts: N series, C = max(y) + 1 classes (every label is below C
      and some label is C - 1), and the context width. */
  lemma TotalsCounts(xt: seq<seq<real>>, s: nat, y: seq<int>, fs: real)
    requires fs > 0.0 && xt != [] && y != []
    ensures var t := Totals(xt, s, y, fs);
      t.nSeries == |xt| && t.nContextVars == s &&
      (forall i :: 0 <= i < |y| ==> y[i] < t.nClasses) &&
      (exists i :: 0 <= i < |y| && y[i] == t.nClasses - 1)
  {
    var k :| 0 <= k < |y| && y[k] == MaxInt(y);
  }

  /** The total duration is the total length of the batch over the sampling frequency. */
  lemma TotalsTime(xt: seq<seq<real>>, s: nat, y: seq<int>, fs: real)
    requires fs > 0.0 && xt != [] && y != []
    ensures Totals(xt, s, y, fs).totalTime == SumNat(Lengths(xt)) as real / fs
  {
    SumDurations(Lengths(xt), fs);
  }

  /** The mean duration is the total duration over the number of series. */
  lemma TotalsMean(xt: seq<seq<real>>, s: nat, y: seq<int>, fs: real)
    requires fs > 0.0 && xt != [] && y != []
    ensures Totals(xt, s, y, fs).meanTime * (|xt| as real) == Totals(xt, s, y, fs).totalTime
  {
  }

  /** The reported range bounds every series' duration and both ends are attained. */
  lemma TotalsRange(xt: seq<seq<real>>, s: nat, y: seq<int>, fs: real)
    requires fs > 0.0 && xt != [] && y != []
    ensures var t := Totals(xt, s, y, fs);
      (forall i :: 0 <= i < |xt| ==> t.timeRange.0 <= |xt[i]| as real / fs <= t.timeRange.1) &&
      (exists i :: 0 <= i < |xt| && t.timeRange.0 == |xt[i]| as real / fs) &&
      (exists i :: 0 <= i < |xt| && t.timeRange.1 == |xt[i]| as real / fs)
  {
    var ti := Durations(Lengths(xt), fs);
    assert forall i :: 0 <= i < |xt| ==> ti[i] == |xt[i]| as real / fs;
    var i :| 0 <= i < |ti| && ti[i] == Min(ti);
    var j :| 0 <= j < |ti| && ti[j] == Max(ti);
  }

  /** Each class count is the number of series carrying that label, and none is zero. */
  lemma ByClassCounts(xt: seq<seq<real>>, y: seq<int>, fs: real, classLabels: Option<seq<string>>)
    requires fs > 0.0 && y != [] && Reportable(xt, y)
    ensures var b := ByClass(xt, y, fs, classLabels);
      forall k :: 0 <= k < |b.nSeries| ==>
        b.nSeries[k] == |set i | 0 <= i < |y| && y[i] == k| && b.nSeries[k] > 0
  {
    var b := ByClass(xt, y, fs, classLabels);
    forall k | 0 <= k < |b.nSeries|
      ensures b.nSeries[k] == |set i | 0 <= i < |y| && y[i] == k|
    {
      CountLabelIsCardinality(y, k);
    }
  }

  /** `Ti[y == c]` is exactly the durations at the positions labelled c, in order. */
  lemma {:induction false} ClassDurationsInOrder(ti: seq<real>, y: seq<int>, c: int)
    requires |ti| == |y|
    ensures var p := Positions(y, c);
      ClassDurations(ti, y, c) == seq(|p|, k requires 0 <= k < |p| => ti[p[k]])
  {
    if ti != [] {
      var m := |ti| - 1;
      ClassDurationsInOrder(ti[..m], y[..m], c);
      var p, q := Positions(y, c), Positions(y[..m], c);
      var r, front := ClassDurations(ti, y, c), ClassDurations(ti[..m], y[..m], c);
      assert |p| == |r|;
      forall k | 0 <= k < |p| ensures r[k] == ti[p[k]] {
        if k < |q| {
          assert p[k] == q[k] && r[k] == front[k];
        }
      }
    }
  }

  /** The sum of `Ti[y == c]` is the sum of the durations with the other classes zeroed. */
  lemma {:induction false} ClassDurationsSum(ti: seq<real>, y: seq<int>, c: int)
    requires |ti| == |y|
    ensures Sum(ClassDurations(ti, y, c)) == Sum(Masked(ti, y, c))
  {
    if ti != [] {
      var m := |ti| - 1;
      ClassDurationsSum(ti[..m], y[..m], c);
      assert Masked(ti, y, c)[..m] == Masked(ti[..m], y[..m], c);
      var front := ClassDurations(ti[..m], y[..m], c);
      if y[m] == c {
        assert (front + [ti[m]])[..|front|] == front;
      } else {
        assert front + [] == front;
      }
    }
  }

  /** The durations summed over class k are the lengths summed over class k, over fs. */
  lemma ClassDurationsSumLengths(lengths: seq<nat>, y: seq<int>, fs: real, k: int)
    requires fs > 0.0 && |lengths| == |y|
    ensures Sum(ClassDurations(Durations(lengths, fs), y, k)) ==
            SumNat(ClassLengths(lengths, y, k)) as real / fs
  {
    var ti, lk := Durations(lengths, fs), ClassLengths(lengths, y, k);
    ClassDurationsSum(ti, y, k);
    MaskedDurations(lengths, y, fs, k);
    SumDurations(lk, fs);
  }

  /** Zeroing the other classes commutes with dividing by fs. */
  lemma MaskedDurations(lengths: seq<nat>, y: seq<int>, fs: real, k: int)
    requires fs > 0.0 && |lengths| == |y|
    ensures Masked(Durations(lengths, fs), y, k) == Durations(ClassLengths(lengths, y, k), fs)
  {
    var a, b := Masked(Durations(lengths, fs), y, k), Durations(ClassLengths(lengths, y, k), fs);
    forall i | 0 <= i < |a| ensures a[i] == b[i] {
      if y[i] != k {
        assert b[i] == 0 as real / fs == 0.0;
      }
    }
  }

  /** Each class total is the summed length of the series labelled k, over fs. */
  lemma ByClassTotals(xt: seq<seq<real>>, y: seq<int>, fs: real, classLabels: Option<seq<string>>)
    requires fs > 0.0 && y != [] && Reportable(xt, y)
    ensures var b := ByClass(xt, y, fs, classLabels);
      forall k :: 0 <= k < |b.totalTime| ==>
        |y| == |xt| && b.totalTime[k] == SumNat(ClassLengths(Lengths(xt), y, k)) as real / fs
  {
    var b := ByClass(xt, y, fs, classLabels);
    forall k | 0 <= k < |b.totalTime|
      ensures |y| == |xt| && b.totalTime[k] == SumNat(ClassLengths(Lengths(xt), y, k)) as real / fs
    {
      assert b.totalTime[k] == Sum(ClassDurations(Durations(Lengths(xt), fs), y, k));
      ClassDurationsSumLengths(Lengths(xt), y, fs, k);
    }
  }

  /** Each class mean is the class total over the (non-zero) class count. */
  lemma ByClassMeans(xt: seq<seq<real>>, y: seq<int>, fs: real, classLabels: Option<seq<string>>)
    requires fs > 0.0 && y != [] && Reportable(xt, y)
    ensures var b := ByClass(xt, y, fs, classLabels);
      forall k :: 0 <= k < |b.meanTime| ==>
        b.nSeries[k] > 0 && b.meanTime[k] == b.totalTime[k] / (b.nSeries[k] as real)
  {
  }

  /** Some series labelled k has duration t. */
  predicate Attained(ti: seq<real>, y: seq<int>, k: int, t: real)
  {
    exists i :: 0 <= i < |ti| && i < |y| && y[i] == k && ti[i] == t
  }

  /** Each per-class min and max bound the durations of the class, and both are attained. */
  lemma ClassRange(ti: seq<real>, y: seq<int>, c: int)
    requires |ti| == |y| && AllClassesPresent(y, c)
    ensures forall k, i :: 0 <= k < NumClasses(c) && 0 <= i < |y| && y[i] == k ==>
      ClassMins(ti, y, c)[k] <= ti[i] <= ClassMaxs(ti, y, c)[k]
    ensures forall k :: 0 <= k < NumClasses(c) ==>
      Attained(ti, y, k, ClassMins(ti, y, c)[k]) && Attained(ti, y, k, ClassMaxs(ti, y, c)[k])
  {
    forall k, i | 0 <= k < NumClasses(c) && 0 <= i < |y| && y[i] == k
      ensures ClassMins(ti, y, c)[k] <= ti[i] <= ClassMaxs(ti, y, c)[k]
    {
      assert ti[i] in ClassDurations(ti, y, k);
    }
    forall k | 0 <= k < NumClasses(c)
      ensures Attained(ti, y, k, ClassMins(ti, y, c)[k]) && Attained(ti, y, k, ClassMaxs(ti, y, c)[k])
    {
      var d := ClassDurations(ti, y, k);
      assert ClassMins(ti, y, c)[k] == Min(d) && ClassMaxs(ti, y, c)[k] == Max(d);
      var i :| 0 <= i < |y| && y[i] == k && ti[i] == Min(d);
      var j :| 0 <= j < |y| && y[j] == k && ti[j] == Max(d);
    }
  }

  /** Each class's min and max bound the duration `len(Xt[i]) / fs` of every series of
      the class, and both are durations of series of that class. */
  lemma ByClassRange(xt: seq<seq<real>>, y: seq<int>, fs: real, classLabels: Option<seq<string>>)
    requires fs > 0.0 && y != [] && Reportable(xt, y)
    ensures var b := ByClass(xt, y, fs, classLabels);
      forall k, i :: 0 <= k < |b.minTime| && 0 <= i < |xt| && i < |y| && y[i] == k ==>
        b.minTime[k] <= |xt[i]| as real / fs <= b.maxTime[k]
    ensures var b := ByClass(xt, y, fs, classLabels);
      var ti := Durations(Lengths(xt), fs);
      (forall i :: 0 <= i < |xt| ==> ti[i] == |xt[i]| as real / fs) &&
      forall k :: 0 <= k < |b.minTime| ==>
        Attained(ti, y, k, b.minTime[k]) && Attained(ti, y, k, b.maxTime[k])
  {
    var b := ByClass(xt, y, fs, classLabels);
    var ti, c := Durations(Lengths(xt), fs), MaxInt(y) + 1;
    if c > 0 {
      assert b.minTime == ClassMins(ti, y, c);
      assert b.maxTime == ClassMaxs(ti, y, c);
      assert forall i :: 0 <= i < |xt| ==> ti[i] == |xt[i]| as real / fs;
      ClassRange(ti, y, c);
    }
  }

  /** Conservation across classes: when no label is negative, every series belongs to
      exactly one class, so the per-class counts sum to N and the per-class totals sum
      to the whole total. */
  lemma ReportConservation(xt: seq<seq<real>>, s: nat, y: seq<int>, fs: real,
                           classLabels: Option<seq<string>>)
    requires fs > 0.0 && xt != [] && y != [] && Reportable(xt, y)
    requires forall i :: 0 <= i < |y| ==> y[i] >= 0
    ensures SumNat(ByClass(xt, y, fs, classLabels).nSeries) == Totals(xt, s, y, fs).nSeries
    ensures Sum(ByClass(xt, y, fs, classLabels).totalTime) == Totals(xt, s, y, fs).totalTime
  {
    var ti := Durations(Lengths(xt), fs);
    var c := MaxInt(y) + 1;
    ClassCountsSum(y, c);
    ClassTotalsSum(ti, y, c);
  }

  /** ts_stats summarizes a plain batch with no context and an aligned container with
      its own context, and raises IndexError for a container some entry of which cannot
      be read. */
  lemma TsStatsOutcome(x: Data, y: seq<int>, fs: real, classLabels: Option<seq<string>>)
    requires fs > 0.0
    ensures x.Plain? ==> TsStats(x, y, fs, classLabels) == Summarize(x.series, None, y, fs, classLabels)
    ensures x.Container? && x.obj.Valid() && Aligned(x.obj.View()) ==>
      TsStats(x, y, fs, classLabels) == Summarize(x.obj.tsData, x.obj.contextData, y, fs, classLabels)
    ensures x.Container? && (exists i :: 0 <= i < x.obj.n && Select(x.obj.View(), [i]).Err?)
      ==> TsStats(x, y, fs, classLabels) == Err(IndexError)
  {
    if x.Container? && x.obj.Valid() && Aligned(x.obj.View()) {
      CheckAlignedContainer(x.obj);
    }
  }

  /** Exactly which batches the summary refuses and with which exception, and that
      otherwise it returns the report over the series and the width of the first
      context row. */
  lemma SummarizeOutcome(xt: seq<seq<real>>, xs: Option<seq<seq<Cell>>>, y: seq<int>, fs: real,
                         classLabels: Option<seq<string>>)
    requires fs > 0.0
    ensures var r := Summarize(xt, xs, y, fs, classLabels);
      (xs == Some([]) ==> r == Err(IndexError)) &&
      (xs != Some([]) && y == [] ==> r == Err(ValueError)) &&
      (xs != Some([]) && y != [] && xt == [] ==> r == Err(IndexError)) &&
      (xs != Some([]) && y != [] && xt != [] && MaxInt(y) >= 0 && |y| != |xt| ==>
         r == Err(IndexError)) &&
      (xs != Some([]) && y != [] && xt != [] && |y| == |xt| &&
         (exists k :: 0 <= k <= MaxInt(y) && CountLabel(y, k) == 0) ==>
         r == Err(ValueError)) &&
      (r.Ok? <==> xs != Some([]) && y != [] && xt != [] && Reportable(xt, y)) &&
      (r.Ok? ==> r.value == Stats(Totals(xt, if xs.Some? then |xs.value[0]| else 0, y, fs),
                                  ByClass(xt, y, fs, classLabels)))
  {
  }

  /** The labels of the worked example below: two classes of two series each. */
  lemma ExampleCounts(y: seq<int>)
    requires y == [0, 0, 1, 1]
    ensures MaxInt(y) == 1 && AllClassesPresent(y, 2)
    ensures CountLabel(y, 0) == 2 && CountLabel(y, 1) == 2
    ensures ClassCounts(y, 2) == [2, 2]
  {
    assert y[..3] == [0, 0, 1] && [0, 0, 1][..2] == [0, 0] && [0, 0][..1] == [0] && [0][..0] == [];
    assert CountLabel([0], 0) == 1 && CountLabel([0], 1) == 0;
    assert CountLabel([0, 0], 0) == 2 && CountLabel([0, 0], 1) == 0;
    assert CountLabel([0, 0, 1], 0) == 2 && CountLabel([0, 0, 1], 1) == 1;
  }

  /** The durations of class 0 in the worked example below. */
  lemma ExampleDurationsOfClass0(ti: seq<real>, y: seq<int>)
    requires ti == [10.0, 10.0, 20.0, 20.0] && y == [0, 0, 1, 1]
    ensures ClassDurations(ti, y, 0) == [10.0, 10.0]
  {
    var t3 := [10.0, 10.0, 20.0];
    assert y[..3] == [0, 0, 1] && ti[..3] == t3;
    assert [0, 0, 1][..2] == [0, 0] && t3[..2] == [10.0, 10.0];
    assert [0, 0][..1] == [0] && [10.0, 10.0][..1] == [10.0];
    assert ClassDurations([10.0], [0], 0) == [10.0];
    assert ClassDurations([10.0, 10.0], [0, 0], 0) == [10.0, 10.0];
  }

  /** The durations of class 1 in the worked example below. */
  lemma ExampleDurationsOfClass1(ti: seq<real>, y: seq<int>)
    requires ti == [10.0, 10.0, 20.0, 20.0] && y == [0, 0, 1, 1]
    ensures ClassDurations(ti, y, 1) == [20.0, 20.0]
  {
    var t3 := [10.0, 10.0, 20.0];
    assert y[..3] == [0, 0, 1] && ti[..3] == t3;
    assert [0, 0, 1][..2] == [0, 0] && t3[..2] == [10.0, 10.0];
    assert [0, 0][..1] == [0] && [10.0, 10.0][..1] == [10.0];
    assert ClassDurations([10.0], [0], 1) == [];
    assert ClassDurations([10.0, 10.0], [0, 0], 1) == [];
  }

  /** The class totals of the worked example below. */
  lemma ExampleTotals(ti: seq<real>, y: seq<int>)
    requires ti == [10.0, 10.0, 20.0, 20.0] && y == [0, 0, 1, 1]
    ensures ClassTotals(ti, y, 2) == [20.0, 40.0]
  {
    ExampleDurationsOfClass0(ti, y);
    ExampleDurationsOfClass1(ti, y);
    assert [10.0, 10.0][..1] == [10.0] && [20.0, 20.0][..1] == [20.0];
    assert Sum([10.0, 10.0]) == 20.0 && Sum([20.0, 20.0]) == 40.0;
  }

  /** The class means of the worked example below. */
  lemma ExampleMeans(ti: seq<real>, y: seq<int>)
    requires ti == [10.0, 10.0, 20.0, 20.0] && y == [0, 0, 1, 1]
    ensures AllClassesPresent(y, 2)
    ensures ClassMeans(ti, y, 2) == [10.0, 20.0]
  {
    ExampleCounts(y);
    ExampleTotals(ti, y);
    var totals := ClassTotals(ti, y, 2);
    var means := ClassMeans(ti, y, 2);
    assert means[0] == totals[0] / 2.0 == 10.0;
    assert means[1] == totals[1] / 2.0 == 20.0;
  }

  /** The report of the worked example below. */
  lemma ExampleReport(xt: seq<seq<real>>, y: seq<int>)
    requires |xt| == 4 && |xt[0]| == 10 && |xt[1]| == 10 && |xt[2]| == 20 && |xt[3]| == 20
    requires y == [0, 0, 1, 1]
    ensures Reportable(xt, y)
    ensures var r := Stats(Totals(xt, 0, y, 1.0), ByClass(xt, y, 1.0, None));
      r.total.nSeries == 4 && r.total.nClasses == 2 &&
      r.total.totalTime == 60.0 && r.total.meanTime == 15.0 &&
      r.byClass.nSeries == [2, 2] &&
      r.byClass.totalTime == [20.0, 40.0] &&
      r.byClass.meanTime == [10.0, 20.0]
  {
    var ti := Durations(Lengths(xt), 1.0);
    assert ti == [10.0, 10.0, 20.0, 20.0];
    ExampleCounts(y);
    ExampleTotals(ti, y);
    ExampleMeans(ti, y);
    assert ti[..3] == [10.0, 10.0, 20.0] && [10.0, 10.0, 20.0][..2] == [10.0, 10.0];
    assert [10.0, 10.0][..1] == [10.0] && [10.0][..0] == [];
    assert Sum(ti) == 60.0;
  }

  /** The worked example: series of lengths 10, 10, 20, 20 with labels 0, 0, 1, 1 at
      fs = 1 give 4 series, 2 classes, a total of 60 and a mean of 15; class 0 has 2
      series totalling 20 (mean 10), class 1 has 2 series totalling 40 (mean 20). */
  lemma TsStatsExample(a: seq<real>, b: seq<real>, c: seq<real>, d: seq<real>)
    requires |a| == 10 && |b| == 10 && |c| == 20 && |d| == 20
    ensures var r := TsStats(Plain([a, b, c, d]), [0, 0, 1, 1], 1.0, None);
      r.Ok? &&
      r.value.total.nSeries == 4 && r.value.total.nClasses == 2 &&
      r.value.total.totalTime == 60.0 && r.value.total.meanTime == 15.0 &&
      r.value.byClass.nSeries == [2, 2] &&
      r.value.byClass.totalTime == [20.0, 40.0] &&
      r.value.byClass.meanTime == [10.0, 20.0]
  {
    ExampleReport([a, b, c, d], [0, 0, 1, 1]);
    TsStatsOutcome(Plain([a, b, c, d]), [0, 0, 1, 1], 1.0, None);
    SummarizeOutcome([a, b, c, d], None, [0, 0, 1, 1], 1.0, None);
  }
}
