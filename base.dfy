/** The time-series container `TS_Data` (seglearn/base.py): N series kept in parallel
    with optional context vectors, timestamp vectors and serial numbers. */
module Base {
  import opened Common

  /** One array element or table cell as `np.atleast_1d` sees it:
      a number, or a one-dimensional array of numbers. */
  datatype Cell = Scalar(x: real) | Array(xs: seq<real>)

  /** `np.atleast_1d` of a cell: a number becomes a one-element array. */
  function AsArray(c: Cell): (r: seq<real>)
    ensures c.Scalar? ==> |r| == 1 && r[0] == c.x
    ensures c.Array? ==> r == c.xs
  {
    match c
    case Scalar(x) => [x]
    case Array(xs) => xs
  }

  /** The four per-series arrays a container holds, as a value:
      series i is ts[i], with context row context[i] (when context is present),
      timestamp vector timestamps[i] and serial number sernum[i]. */
  datatype Parts = Parts(ts: seq<seq<real>>,
                         context: Option<seq<seq<Cell>>>,
                         timestamps: seq<seq<real>>,
                         sernum: seq<Cell>)

  /** Every parallel array has one entry per series. */
  predicate Aligned(p: Parts)
  {
    |p.timestamps| == |p.ts| && |p.sernum| == |p.ts| &&
    (p.context.Some? ==> |p.context.value| == |p.ts|)
  }

  /** `np.arange(n)` over integers: 0, 1, ..., n-1 (empty when n <= 0). */
  function Iota(n: int): (r: seq<int>)
    ensures |r| == if n < 0 then 0 else n
    ensures forall i :: 0 <= i < |r| ==> r[i] == i
    decreases if n < 0 then 0 else n
  {
    if n <= 0 then [] else Iota(n - 1) + [n - 1]
  }

  /** The default timestamps of a batch: `np.arange(len(ts[i]))` for each series i. */
  function DefaultTimestamps(ts: seq<seq<real>>): (r: seq<seq<real>>)
    ensures |r| == |ts|
    ensures forall i :: 0 <= i < |ts| ==> |r[i]| == |ts[i]|
    ensures forall i, j :: 0 <= i < |ts| && 0 <= j < |ts[i]| ==> r[i][j] == j as real
  {
    seq(|ts|, i requires 0 <= i < |ts| => seq(|ts[i]|, j => j as real))
  }

  /** The default serial numbers of a batch of n series: `np.arange(n)`. */
  function DefaultSernum(n: nat): (r: seq<Cell>)
    ensures |r| == n && forall i :: 0 <= i < n ==> r[i] == Scalar(i as real)
  {
    seq(n, i => Scalar(i as real))
  }

  /** What `TS_Data.__init__` stores: the arguments as given, with timestamps and
      serial numbers defaulted when they are `None`. */
  function Init(ts: seq<seq<real>>, context: Option<seq<seq<Cell>>>,
                timestamps: Option<seq<seq<real>>>, sernum: Option<seq<Cell>>): (p: Parts)
    ensures p.ts == ts && p.context == context
    ensures timestamps.Some? ==> p.timestamps == timestamps.value
    ensures timestamps.None? ==>
      |p.timestamps| == |ts| &&
      (forall i :: 0 <= i < |ts| ==> |p.timestamps[i]| == |ts[i]|) &&
      (forall i, j :: 0 <= i < |ts| && 0 <= j < |ts[i]| ==> p.timestamps[i][j] == j as real)
    ensures sernum.Some? ==> p.sernum == sernum.value
    ensures sernum.None? ==>
      |p.sernum| == |ts| && forall i :: 0 <= i < |ts| ==> p.sernum[i] == Scalar(i as real)
  {
    Parts(ts, context,
          if timestamps.Some? then timestamps.value else DefaultTimestamps(ts),
          if sernum.Some? then sernum.value else DefaultSernum(|ts|))
  }

  /** A freshly built container is aligned exactly when every array that was
      supplied has one entry per series; the defaults always are. */
  lemma InitAligned(ts: seq<seq<real>>, context: Option<seq<seq<Cell>>>,
                    timestamps: Option<seq<seq<real>>>, sernum: Option<seq<Cell>>)
    ensures Aligned(Init(ts, context, timestamps, sernum)) <==>
      (context.Some? ==> |context.value| == |ts|) &&
      (timestamps.Some? ==> |timestamps.value| == |ts|) &&
      (sernum.Some? ==> |sernum.value| == |ts|)
  {
  }

  // ---------------------------------------------------------------------------
  // Fancy indexing with an index sequence (numpy semantics)

  /** numpy accepts an index k into an array of length n when -n <= k < n. */
  predicate InRange(idx: seq<int>, n: nat)
  {
    forall k :: 0 <= k < |idx| ==> -(n as int) <= idx[k] < n
  }

  /** The position a numpy index denotes: a negative index counts from the end. */
  function Wrap(k: int, n: nat): int
  {
    if k < 0 then k + n else k
  }

  /** `a[idx]` for an integer index sequence; `None` stands for the IndexError
      numpy raises when some index is out of range. */
  function Take<T>(a: seq<T>, idx: seq<int>): (r: Option<seq<T>>)
    ensures r.Some? <==> InRange(idx, |a|)
    ensures r.Some? ==> |r.value| == |idx|
    ensures r.Some? ==> forall k :: 0 <= k < |idx| ==>
      0 <= Wrap(idx[k], |a|) < |a| && r.value[k] == a[Wrap(idx[k], |a|)]
  {
    if idx == [] then Some([])
    else
      var last := idx[|idx| - 1];
      match Take(a, idx[..|idx| - 1])
      case None => None
      case Some(front) =>
        if -|a| <= last < |a| then Some(front + [a[Wrap(last, |a|)]]) else None
  }

  /** `TS_Data.__getitem__(idx)`: every parallel array restricted with the same index
      sequence, then passed to `__init__` (so context stays `None` if it was). */
  function Select(p: Parts, idx: seq<int>): (r: Result<Parts>)
    ensures r.Ok? <==>
      InRange(idx, |p.ts|) && InRange(idx, |p.timestamps|) && InRange(idx, |p.sernum|) &&
      (p.context.Some? ==> InRange(idx, |p.context.value|))
    ensures r.Err? ==> r.error == IndexError
    ensures r.Ok? ==> Aligned(r.value) && |r.value.ts| == |idx|
    ensures r.Ok? ==> (r.value.context.Some? <==> p.context.Some?)
    ensures r.Ok? ==> forall k :: 0 <= k < |idx| ==>
      r.value.ts[k] == p.ts[Wrap(idx[k], |p.ts|)] &&
      r.value.timestamps[k] == p.timestamps[Wrap(idx[k], |p.timestamps|)] &&
      r.value.sernum[k] == p.sernum[Wrap(idx[k], |p.sernum|)]
    ensures r.Ok? && p.context.Some? ==> forall k :: 0 <= k < |idx| ==>
      r.value.context.value[k] == p.context.value[Wrap(idx[k], |p.context.value|)]
  {
    var ts := Take(p.ts, idx);
    var context := if p.context.Some? then Take(p.context.value, idx) else None;
    var timestamps := Take(p.timestamps, idx);
    var sernum := Take(p.sernum, idx);
    if ts.None? || (p.context.Some? && context.None?) || timestamps.None? || sernum.None? then
      Err(IndexError)
    else
      Ok(Init(ts.value, context, Some(timestamps.value), Some(sernum.value)))
  }

  /** Taking every position in order gives the array back. */
  lemma TakeAll<T>(a: seq<T>)
    ensures Take(a, Iota(|a|)) == Some(a)
  {
    var idx := Iota(|a|);
    assert InRange(idx, |a|) by {
      forall k | 0 <= k < |idx| ensures -|a| <= idx[k] < |a| {
        assert idx[k] == k;
      }
    }
    var r := Take(a, idx);
    forall k | 0 <= k < |a| ensures r.value[k] == a[k] {
      assert idx[k] == k && Wrap(idx[k], |a|) == k;
    }
    assert r.value == a;
  }

  /** Indexing an aligned container with 0, 1, ..., N-1 gives the same container. */
  lemma SelectAllInOrder(p: Parts)
    requires Aligned(p)
    ensures Select(p, Iota(|p.ts|)) == Ok(p)
  {
    TakeAll(p.ts);
    TakeAll(p.timestamps);
    TakeAll(p.sernum);
    if p.context.Some? {
      TakeAll(p.context.value);
    }
  }

  /** The index sequence that selects with `i` and then with `j`. */
  function Compose(i: seq<int>, j: seq<int>): (r: seq<int>)
    requires InRange(j, |i|)
  {
    seq(|j|, k requires 0 <= k < |j| => i[Wrap(j[k], |i|)])
  }

  /** Indexing twice is indexing once with the composed index sequence: whatever the
      lengths of the four arrays, series, context, timestamps and serial numbers stay
      paired through any chain of selections. */
  lemma SelectTwice(p: Parts, i: seq<int>, j: seq<int>)
    requires Select(p, i).Ok? && Select(Select(p, i).value, j).Ok?
    ensures InRange(j, |i|)
    ensures Select(p, Compose(i, j)) == Select(Select(p, i).value, j)
  {
    var q := Select(p, i).value;
    var c := Compose(i, j);
    forall k | 0 <= k < |c|
      ensures c[k] == i[Wrap(j[k], |i|)]
    {
    }
    assert InRange(c, |p.ts|);
    assert InRange(c, |p.timestamps|);
    assert InRange(c, |p.sernum|);
    if p.context.Some? {
      assert InRange(c, |p.context.value|);
    }
    var a := Select(p, c).value;
    var b := Select(q, j).value;
    assert a.ts == b.ts;
    assert a.timestamps == b.timestamps;
    assert a.sernum == b.sernum;
    if p.context.Some? {
      assert a.context.value == b.context.value;
    }
  }

  // ---------------------------------------------------------------------------
  // Construction from a table of named columns (`TS_Data.from_df`)

  /** A named column of a table, one cell per row. */
  datatype Column = Column(name: string, cells: seq<Cell>)

  /** A table: a row count and an ordered list of named columns. */
  datatype Table = Table(rows: nat, columns: seq<Column>)

  /** Every column of a table has one cell per row. */
  predicate WellFormed(t: Table)
  {
    forall c :: c in t.columns ==> |c.cells| == t.rows
  }

  /** The column names `from_df` does not fold into context. */
  predicate Reserved(name: string)
  {
    name == "ts_data" || name == "timestamps" || name == "sernum"
  }

  /** `df[name]`: the first column called `name`, if there is one. */
  function Find(cols: seq<Column>, name: string): (r: Option<Column>)
    ensures r.Some? <==> exists j :: 0 <= j < |cols| && cols[j].name == name
    ensures r.Some? ==> r.value in cols && r.value.name == name
  {
    if cols == [] then None
    else if cols[0].name == name then Some(cols[0])
    else Find(cols[1..], name)
  }

  /** The columns left after dropping the reserved ones, in their original order. */
  function ContextColumns(cols: seq<Column>): (r: seq<Column>)
    ensures forall c :: c in r <==> c in cols && !Reserved(c.name)
  {
    if cols == [] then []
    else (if Reserved(cols[0].name) then [] else [cols[0]]) + ContextColumns(cols[1..])
  }

  /** Dropping the reserved columns keeps the order of the others. */
  lemma {:induction false} ContextColumnsAppend(a: seq<Column>, b: seq<Column>)
    ensures ContextColumns(a + b) == ContextColumns(a) + ContextColumns(b)
  {
    if a == [] {
      assert a + b == b;
    } else {
      assert (a + b)[1..] == a[1..] + b;
      ContextColumnsAppend(a[1..], b);
    }
  }

  /** `np.array` of the remaining columns: row i holds the i-th cell of each column. */
  function ContextRows(cols: seq<Column>, rows: nat): (r: seq<seq<Cell>>)
    requires forall c :: c in cols ==> |c.cells| == rows
    ensures |r| == rows
    ensures forall i :: 0 <= i < rows ==>
      |r[i]| == |cols| && forall j :: 0 <= j < |cols| ==> r[i][j] == cols[j].cells[i]
  {
    seq(rows, i requires 0 <= i < rows =>
      seq(|cols|, j requires 0 <= j < |cols| => (assert cols[j] in cols; cols[j].cells[i])))
  }

  /** The constructor arguments `from_df` extracts from a table. */
  datatype TableArgs = TableArgs(ts: seq<seq<real>>, context: Option<seq<seq<Cell>>>,
                                 timestamps: Option<seq<seq<real>>>, sernum: Option<seq<Cell>>)

  /** `ts_data`, `timestamps` and `sernum` from their columns (the last two only when
      present), and every other column as context; KeyError without a `ts_data` column.
      A frame is empty when it has no column or no row, and then context is `None`. */
  function ReadTable(t: Table): (r: Result<TableArgs>)
    requires WellFormed(t)
    ensures r.Err? <==> Find(t.columns, "ts_data").None?
    ensures r.Err? ==> r.error == KeyError
    ensures r.Ok? ==> |r.value.ts| == t.rows
    ensures r.Ok? ==> forall i :: 0 <= i < t.rows ==>
      r.value.ts[i] == AsArray(Find(t.columns, "ts_data").value.cells[i])
    ensures r.Ok? ==> (r.value.timestamps.Some? <==> Find(t.columns, "timestamps").Some?)
    ensures r.Ok? && r.value.timestamps.Some? ==> |r.value.timestamps.value| == t.rows
    ensures r.Ok? && r.value.timestamps.Some? ==> forall i :: 0 <= i < t.rows ==>
      r.value.timestamps.value[i] == AsArray(Find(t.columns, "timestamps").value.cells[i])
    ensures r.Ok? ==> (r.value.sernum.Some? <==> Find(t.columns, "sernum").Some?)
    ensures r.Ok? && r.value.sernum.Some? ==>
      r.value.sernum.value == Find(t.columns, "sernum").value.cells
    ensures r.Ok? ==>
      (r.value.context.None? <==> ContextColumns(t.columns) == [] || t.rows == 0)
    ensures r.Ok? && r.value.context.Some? ==>
      var cols := ContextColumns(t.columns);
      |r.value.context.value| == t.rows &&
      forall i :: 0 <= i < t.rows ==>
        |r.value.context.value[i]| == |cols| &&
        forall j :: 0 <= j < |cols| ==> r.value.context.value[i][j] == cols[j].cells[i]
  {
    match Find(t.columns, "ts_data")
    case None => Err(KeyError)
    case Some(tsCol) =>
      var ts := seq(t.rows, i requires 0 <= i < t.rows => AsArray(tsCol.cells[i]));
      var timestamps :=
        match Find(t.columns, "timestamps")
        case None => None
        case Some(col) => Some(seq(t.rows, i requires 0 <= i < t.rows => AsArray(col.cells[i])));
      var sernum :=
        match Find(t.columns, "sernum")
        case None => None
        case Some(col) => Some(col.cells);
      var cols := ContextColumns(t.columns);
      var context := if cols == [] || t.rows == 0 then None else Some(ContextRows(cols, t.rows));
      Ok(TableArgs(ts, context, timestamps, sernum))
  }

  /** Some cell of the column is a number rather than an array. */
  predicate HasScalar(cells: seq<Cell>)
  {
    exists i :: 0 <= i < |cells| && cells[i].Scalar?
  }

  /** `TS_Data.from_df` as a value: the container `__init__` builds from the table.
      Without a timestamps column, `__init__` takes `len(ts_data[i])` of every series,
      which raises TypeError when a ts_data cell is a number. */
  function FromTable(t: Table): (r: Result<Parts>)
    requires WellFormed(t)
    ensures r.Err? <==>
      (Find(t.columns, "ts_data").None? ||
       (Find(t.columns, "timestamps").None? && HasScalar(Find(t.columns, "ts_data").value.cells)))
    ensures r.Err? && Find(t.columns, "ts_data").None? ==> r.error == KeyError
    ensures r.Err? && Find(t.columns, "ts_data").Some? ==> r.error == TypeError
    ensures r.Ok? ==> Aligned(r.value) && |r.value.ts| == t.rows
    ensures r.Ok? && Find(t.columns, "sernum").None? ==>
      forall i :: 0 <= i < t.rows ==> r.value.sernum[i] == Scalar(i as real)
    ensures r.Ok? && Find(t.columns, "timestamps").None? ==>
      forall i :: 0 <= i < t.rows ==> |r.value.timestamps[i]| == |r.value.ts[i]|
  {
    match ReadTable(t)
    case Err(e) => Err(e)
    case Ok(a) =>
      if a.timestamps.None? && HasScalar(Find(t.columns, "ts_data").value.cells) then Err(TypeError)
      else Ok(Init(a.ts, a.context, a.timestamps, a.sernum))
  }

  /** A one-row table whose ts_data cell is a number and which has no timestamps column
      raises TypeError: the default timestamps need the length of that number. */
  lemma ScalarSeriesWithoutTimestamps(x: real)
    ensures FromTable(Table(1, [Column("ts_data", [Scalar(x)])])) == Err(TypeError)
  {
    var t := Table(1, [Column("ts_data", [Scalar(x)])]);
    assert Find(t.columns, "ts_data") == Some(t.columns[0]);
    assert Find(t.columns, "timestamps").None?;
    assert t.columns[0].cells[0].Scalar?;
  }

  // ---------------------------------------------------------------------------
  // The container object

  /** `TS_Data`: the parallel arrays, the element count N, `shape == [N]` and the
      iteration cursor `index`, which lives on the container itself. */
  class TSData {
    var tsData: seq<seq<real>>
    var contextData: Option<seq<seq<Cell>>>
    var timestamps: seq<seq<real>>
    var sernum: seq<Cell>
    var index: int
    var n: nat
    var shape: seq<int>

    /** N is the number of series, the shape is [N], and the cursor stays within 0..N. */
    ghost predicate Valid()
      reads this
    {
      n == |tsData| && shape == [n] && 0 <= index <= n
    }

    /** The arrays held, as a value. */
    function View(): Parts
      reads this
    {
      Parts(tsData, contextData, timestamps, sernum)
    }

    /** `__init__(ts_data, context_data, timestamps=None, sernum=None)`. */
    constructor (ts: seq<seq<real>>, context: Option<seq<seq<Cell>>>,
                 timestamps: Option<seq<seq<real>>>, sernum: Option<seq<Cell>>)
      ensures Valid()
      ensures View() == Init(ts, context, timestamps, sernum)
      ensures n == |ts| && shape == [|ts|] && index == 0
    {
      var p := Init(ts, context, timestamps, sernum);
      tsData := p.ts;
      contextData := p.context;
      this.timestamps := p.timestamps;
      this.sernum := p.sernum;
      index := 0;
      n := |ts|;
      shape := [|ts|];
    }

    /** `__len__`: the number of series. */
    function Length(): (r: nat)
      reads this
      requires Valid()
      ensures r == |tsData| && shape == [r]
    {
      n
    }

    /** The cursor step of `__next__`: reports exhaustion (StopIteration) exactly when
        the cursor has reached N, and otherwise advances it by one. */
    method Next() returns (exhausted: bool)
      requires Valid()
      modifies this`index
      ensures Valid()
      ensures exhausted <==> old(index) == n
      ensures index == if exhausted then old(index) else old(index) + 1
      ensures View() == old(View())
    {
      if index == n {
        return true;
      }
      index := index + 1;
      return false;
    }

    /** Iterating a container from a fresh cursor: `__next__` steps exactly N times and
        then signals exhaustion, so an empty container is exhausted at once. */
    method Drain() returns (steps: nat)
      requires Valid() && index == 0
      modifies this`index
      ensures Valid() && steps == n && index == n
      ensures View() == old(View())
    {
      steps := 0;
      var exhausted := false;
      while !exhausted
        invariant Valid() && index == steps
        invariant exhausted ==> index == n
        invariant View() == old(View())
        decreases n - index, if exhausted then 0 else 1
      {
        exhausted := Next();
        if !exhausted {
          steps := steps + 1;
        }
      }
    }

    /** `__getitem__(idx)` for an index sequence: a new container over the selection. */
    method GetItem(idx: seq<int>) returns (r: Result<TSData>)
      ensures r.Err? <==> Select(View(), idx).Err?
      ensures r.Err? ==> r.error == IndexError
      ensures r.Ok? ==> fresh(r.value) && r.value.Valid() && r.value.index == 0
      ensures r.Ok? ==> r.value.View() == Select(View(), idx).value
    {
      var s := Select(View(), idx);
      if s.Err? {
        return Err(s.error);
      }
      var c := new TSData(s.value.ts, s.value.context, Some(s.value.timestamps), Some(s.value.sernum));
      return Ok(c);
    }

    /** `from_df(df)`: a new container built from a table. */
    static method FromDf(t: Table) returns (r: Result<TSData>)
      requires WellFormed(t)
      ensures r.Err? <==> FromTable(t).Err?
      ensures r.Err? ==> r.error == FromTable(t).error
      ensures r.Ok? ==> fresh(r.value) && r.value.Valid() && r.value.index == 0
      ensures r.Ok? ==> r.value.View() == FromTable(t).value
    {
      var a := ReadTable(t);
      if a.Err? {
        return Err(a.error);
      }
      if a.value.timestamps.None? && HasScalar(Find(t.columns, "ts_data").value.cells) {
        return Err(TypeError);
      }
      var c := new TSData(a.value.ts, a.value.context, a.value.timestamps, a.value.sernum);
      return Ok(c);
    }
  }
}
