/** Decoding of one chart record into the series table that the widget draws.
    The JSON object is given already split into its parts: the "types",
    "names" and "colors" objects as maps keyed by column label, and the
    "columns" array as a sequence of columns, each a label followed by numbers. */
module ChartDataDecoder {
  import opened Common

  const TypeLine: string := "line"
  const TypeX: string := "x"

  /** A JSON column `["label", v1, v2, ...]`: `id` is the label and `values` the items after it,
      so the JSON array has `|values| + 1` items. */
  datatype Column = Column(id: string, values: seq<int>)

  datatype ChartJson = ChartJson(
    types: map<string, string>,
    names: map<string, string>,
    colors: map<string, int>,
    columns: seq<Column>)

  /** Why the constructor throws; each case names the access that fails. */
  datatype DecodeError =
    | MissingColumn(index: nat)   // columns.getJSONArray(i) past the end of "columns"
    | MissingType(id: string)  // types.getString(label) for an unknown label
    | ShortColumn(index: nat)     // array.getLong/getInt(j + 1) past the end of column i
    | MissingColor(id: string) // jColors.getString(label)
    | MissingName(id: string)  // jNames.getString(label)
    | RowOutOfRange(row: nat)     // graphs/colors/names[i - skip] with i - skip == graphsCount

  /** The decoded series table (the fields of the ChartData object). */
  datatype ChartData = ChartData(
    graphsCount: nat,
    valuesCount: nat,
    timeline: seq<int>,
    graphs: seq<seq<int>>,
    maximums: seq<int>,
    colors: seq<int>,
    names: seq<Option<string>>)
  {
    /** Every per-series array has one entry per series, every series one value per
        timeline point, and the values are Java ints. */
    predicate WellFormed() {
      && |timeline| == valuesCount
      && |graphs| == graphsCount
      && |maximums| == graphsCount
      && |colors| == graphsCount
      && |names| == graphsCount
      && (forall k :: 0 <= k < graphsCount ==> |graphs[k]| == valuesCount)
      && (forall k, j :: 0 <= k < graphsCount && 0 <= j < valuesCount ==> IsInt32(graphs[k][j]))
      && (forall k :: 0 <= k < graphsCount ==> IsInt32(maximums[k]))
    }
  }

  /** The arrays of the object under construction, and the `skip` counter. */
  datatype Partial = Partial(
    timeline: seq<int>,
    graphs: seq<seq<int>>,
    maximums: seq<int>,
    colors: seq<int>,
    names: seq<Option<string>>,
    skip: nat)
  {
    predicate Shaped(gc: nat, vc: nat) {
      && |timeline| == vc
      && |graphs| == gc && |maximums| == gc && |colors| == gc && |names| == gc
      && (forall k :: 0 <= k < gc ==> |graphs[k]| == vc)
      && (forall k, j :: 0 <= k < gc && 0 <= j < vc ==> IsInt32(graphs[k][j]))
      && (forall k :: 0 <= k < gc ==> IsInt32(maximums[k]))
    }
  }

  /** Java's freshly allocated arrays: zeros and nulls. */
  function Init(gc: nat, vc: nat): (p: Partial)
    ensures p.Shaped(gc, vc) && p.skip == 0
  {
    Partial(seq(vc, _ => 0), seq(gc, _ => seq(vc, _ => 0)), seq(gc, _ => 0), seq(gc, _ => 0),
            seq(gc, _ => None), 0)
  }

  /** `array.getInt(j + 1)` for every j < vc: each number narrowed to a Java int. */
  function IntRow(values: seq<int>, vc: nat): (row: seq<int>)
    requires vc <= |values|
    ensures |row| == vc
    ensures forall j :: 0 <= j < vc ==> row[j] == Int32Of(values[j])
  {
    seq(vc, j requires 0 <= j < vc => Int32Of(values[j]))
  }

  /** The type of column `i`, when the column exists and its label has a type. */
  function TypeOf(json: ChartJson, i: nat): Option<string> {
    if i < |json.columns| && json.columns[i].id in json.types
    then Some(json.types[json.columns[i].id]) else None
  }

  /** Number of columns before `n` that are not "line" columns: the value of `skip`. */
  function NonLineCount(json: ChartJson, n: nat): (c: nat)
    ensures c <= n
  {
    if n == 0 then 0
    else NonLineCount(json, n - 1) + (if TypeOf(json, n - 1) == Some(TypeLine) then 0 else 1)
  }

  /** One pass of the constructor's loop body for column `i` (a "line" column). */
  function LineStep(json: ChartJson, gc: nat, vc: nat, i: nat, p: Partial): (r: Result<Partial, DecodeError>)
    requires i < |json.columns| && p.skip <= i && p.Shaped(gc, vc)
    ensures r.Ok? ==> r.value.Shaped(gc, vc) && r.value.skip == p.skip
  {
    var col := json.columns[i];
    var k := i - p.skip;
    if vc > 0 && |col.values| == 0 then Err(ShortColumn(i))
    else if vc > 0 && k >= gc then Err(RowOutOfRange(k))
    else if |col.values| < vc then Err(ShortColumn(i))
    else if col.id !in json.colors then Err(MissingColor(col.id))
    else if k >= gc then Err(RowOutOfRange(k))
    else if col.id !in json.names then Err(MissingName(col.id))
    else
      var row := IntRow(col.values, vc);
      RunningMaxIsMax(p.maximums[k], row);
      Ok(p.(graphs := p.graphs[k := row],
            maximums := p.maximums[k := RunningMax(p.maximums[k], row)],
            colors := p.colors[k := json.colors[col.id]],
            names := p.names[k := Some(json.names[col.id])]))
  }

  /** One pass of the constructor's loop body for column `i`. */
  function Step(json: ChartJson, gc: nat, vc: nat, i: nat, p: Partial): (r: Result<Partial, DecodeError>)
    requires p.skip <= i && p.Shaped(gc, vc)
    ensures r.Ok? ==> r.value.Shaped(gc, vc)
    ensures r.Ok? ==> r.value.skip == p.skip + (if TypeOf(json, i) == Some(TypeLine) then 0 else 1)
  {
    if i >= |json.columns| then Err(MissingColumn(i))
    else
      var col := json.columns[i];
      if col.id !in json.types then Err(MissingType(col.id))
      else if json.types[col.id] == TypeX then
        if |col.values| < vc then Err(ShortColumn(i))
        else
          Ok(p.(timeline := col.values[..vc], skip := p.skip + 1))
      else if json.types[col.id] == TypeLine then
        var r := LineStep(json, gc, vc, i, p);
        r
      else Ok(p.(skip := p.skip + 1))
  }

  /** The state after the first `n` passes of the loop. */
  function Run(json: ChartJson, gc: nat, vc: nat, n: nat): (r: Result<Partial, DecodeError>)
    ensures r.Ok? ==> r.value.Shaped(gc, vc) && r.value.skip == NonLineCount(json, n)
  {
    if n == 0 then Ok(Init(gc, vc))
    else
      match Run(json, gc, vc, n - 1)
      case Err(e) => Err(e)
      case Ok(p) => Step(json, gc, vc, n - 1, p)
  }

  /** What `new ChartData(json)` produces: the series count is the number of names,
      the value count the length of the first column without its label, and the loop
      runs over the first `graphsCount + 1` columns. */
  function Decoded(json: ChartJson): (r: Result<ChartData, DecodeError>)
    ensures |json.columns| == 0 ==> r == Err(MissingColumn(0))
    ensures r.Ok? ==> r.value.WellFormed()
    ensures r.Ok? ==> r.value.graphsCount == |json.names|
    ensures r.Ok? ==> 1 <= |json.columns| && r.value.valuesCount == |json.columns[0].values|
  {
    if |json.columns| == 0 then Err(MissingColumn(0))
    else
      var gc := |json.names|;
      var vc := |json.columns[0].values|;
      match Run(json, gc, vc, gc + 1)
      case Err(e) => Err(e)
      case Ok(p) => Ok(ChartData(gc, vc, p.timeline, p.graphs, p.maximums, p.colors, p.names))
  }

  // ---------------------------------------------------------------------------
  // The constructor's loop, over arrays.

  /** The rows of a two-dimensional array. */
  function Rows(g: array2<int>): (r: seq<seq<int>>)
    reads g
    ensures |r| == g.Length0
    ensures forall k :: 0 <= k < g.Length0 ==> |r[k]| == g.Length1
    ensures forall k, j :: 0 <= k < g.Length0 && 0 <= j < g.Length1 ==> r[k][j] == g[k, j]
  {
    seq(g.Length0, k reads g requires 0 <= k < g.Length0 =>
      seq(g.Length1, j reads g requires 0 <= j < g.Length1 => g[k, j]))
  }

  /** The loop over an "x" column: `timeline[j] = array.getLong(j + 1)`; it throws as
      soon as the column is shorter than the timeline. */
  method FillTimeline(timeline: array<int>, values: seq<int>) returns (ok: bool)
    modifies timeline
    ensures ok == (timeline.Length <= |values|)
    ensures ok ==> timeline[..] == values[..timeline.Length]
  {
    var j := 0;
    while j < timeline.Length
      invariant 0 <= j <= timeline.Length && j <= |values|
      invariant timeline[..j] == values[..j]
    {
      if j + 1 > |values| {
        return false;
      }
      timeline[j] := values[j];
      assert timeline[..j + 1] == timeline[..j] + [values[j]];
      assert values[..j + 1] == values[..j] + [values[j]];
      j := j + 1;
    }
    assert timeline[..] == timeline[..j];
    return true;
  }

  /** Which exception, if any, the loop over a "line" column throws before it ends:
      reading item j + 1 comes before writing row k. */
  function LineLoopError(values: seq<int>, vc: nat, gc: nat, k: nat, i: nat): Option<DecodeError> {
    if vc > 0 && |values| == 0 then Some(ShortColumn(i))
    else if vc > 0 && k >= gc then Some(RowOutOfRange(k))
    else if |values| < vc then Some(ShortColumn(i))
    else None
  }

  /** The loop over a "line" column: row k of `graphs` gets the column's values and
      `maximums[k]` is raised to every strictly greater value. */
  method FillRow(graphs: array2<int>, maximums: array<int>, k: nat, values: seq<int>, i: nat)
    returns (err: Option<DecodeError>)
    requires graphs.Length0 == maximums.Length
    modifies graphs, maximums
    ensures err == LineLoopError(values, graphs.Length1, graphs.Length0, k, i)
    ensures err == None && k < graphs.Length0 ==>
              Rows(graphs) == old(Rows(graphs))[k := IntRow(values, graphs.Length1)] &&
              maximums[..] == old(maximums[..])[k := RunningMax(old(maximums[k]), IntRow(values, graphs.Length1))]
    ensures err == None && k >= graphs.Length0 ==> Rows(graphs) == old(Rows(graphs)) && maximums[..] == old(maximums[..])
  {
    var vc := graphs.Length1;
    ghost var m0 := if k < maximums.Length then maximums[k] else 0;
    var j := 0;
    while j < vc
      invariant 0 <= j <= vc && j <= |values|
      invariant j > 0 ==> k < graphs.Length0
      invariant forall m, n :: 0 <= m < graphs.Length0 && 0 <= n < vc && (m != k || n >= j) ==>
                  graphs[m, n] == old(graphs[m, n])
      invariant forall n :: 0 <= n < j ==> graphs[k, n] == Int32Of(values[n])
      invariant forall m :: 0 <= m < maximums.Length && m != k ==> maximums[m] == old(maximums[m])
      invariant k < maximums.Length ==> maximums[k] == RunningMax(m0, IntRow(values, j))
    {
      if j + 1 > |values| {
        return Some(ShortColumn(i));
      }
      var value := Int32Of(values[j]);
      if k >= graphs.Length0 {
        return Some(RowOutOfRange(k));
      }
      assert IntRow(values, j + 1)[..j] == IntRow(values, j);
      graphs[k, j] := value;
      if value > maximums[k] {
        maximums[k] := value;
      }
      j := j + 1;
    }
    if |values| < vc {
      return Some(ShortColumn(i));
    }
    if k < graphs.Length0 {
      assert Rows(graphs) == old(Rows(graphs))[k := IntRow(values, vc)] by {
        forall m | 0 <= m < graphs.Length0
          ensures Rows(graphs)[m] == old(Rows(graphs))[k := IntRow(values, vc)][m] { }
      }
    } else {
      assert Rows(graphs) == old(Rows(graphs)) by {
        forall m | 0 <= m < graphs.Length0 ensures Rows(graphs)[m] == old(Rows(graphs))[m] { }
      }
    }
    return None;
  }

  /** Once a pass throws, the constructor throws that exception. */
  lemma {:induction false} RunStaysFailed(json: ChartJson, gc: nat, vc: nat, n: nat, m: nat)
    requires n <= m && Run(json, gc, vc, n).Err?
    ensures Run(json, gc, vc, m) == Run(json, gc, vc, n)
    decreases m
  {
    if n < m {
      RunStaysFailed(json, gc, vc, n, m - 1);
    }
  }

  lemma DecodedFailsAt(json: ChartJson, i: nat, p: Partial, e: DecodeError)
    requires |json.columns| > 0 && i <= |json.names|
    requires Run(json, |json.names|, |json.columns[0].values|, i) == Ok(p)
    requires Step(json, |json.names|, |json.columns[0].values|, i, p) == Err(e)
    ensures Decoded(json) == Err(e)
  {
    RunStaysFailed(json, |json.names|, |json.columns[0].values|, i + 1, |json.names| + 1);
  }

  /** The arrays under construction, read as a decoding state. */
  function Snapshot(timeline: array<int>, graphs: array2<int>, maximums: array<int>, colors: array<int>,
                    names: array<Option<string>>, skip: nat): Partial
    reads timeline, graphs, maximums, colors, names
  {
    Partial(timeline[..], Rows(graphs), maximums[..], colors[..], names[..], skip)
  }

  /** One pass of the constructor's loop, over column `i`: it fills the arrays and
      returns the new `skip`, or the exception the pass throws. */
  method DecodeColumn(json: ChartJson, i: nat, timeline: array<int>, graphs: array2<int>, maximums: array<int>,
                      colors: array<int>, names: array<Option<string>>, skip: nat)
    returns (err: Option<DecodeError>, skip': nat)
    requires skip <= i
    requires graphs.Length0 == maximums.Length == colors.Length == names.Length
    requires timeline.Length == graphs.Length1
    requires timeline != maximums && timeline != colors && maximums != colors
    requires Snapshot(timeline, graphs, maximums, colors, names, skip).Shaped(graphs.Length0, graphs.Length1)
    modifies timeline, graphs, maximums, colors, names
    ensures var st := Step(json, graphs.Length0, graphs.Length1, i,
                           old(Snapshot(timeline, graphs, maximums, colors, names, skip)));
            if err.Some? then st == Err(err.value)
            else st == Ok(Snapshot(timeline, graphs, maximums, colors, names, skip'))
  {
    ghost var p := Snapshot(timeline, graphs, maximums, colors, names, skip);
    var graphsCount := graphs.Length0;
    err, skip' := None, skip;
    if i >= |json.columns| {
      return Some(MissingColumn(i)), skip';
    }
    var column := json.columns[i];
    var id := column.id;
    if id !in json.types {
      return Some(MissingType(id)), skip';
    }
    if json.types[id] == TypeX {
      var ok := FillTimeline(timeline, column.values);
      if !ok {
        return Some(ShortColumn(i)), skip';
      }
      skip' := skip + 1;
      assert Rows(graphs) == p.graphs;
      assert Step(json, graphsCount, graphs.Length1, i, p) == Ok(p.(timeline := timeline[..], skip := skip'));
    } else if json.types[id] == TypeLine {
      var k := i - skip;
      err := FillRow(graphs, maximums, k, column.values, i);
      if err.Some? {
        return err, skip';
      }
      if id !in json.colors {
        return Some(MissingColor(id)), skip';
      }
      if k >= graphsCount {
        return Some(RowOutOfRange(k)), skip';
      }
      colors[k] := json.colors[id];
      if id !in json.names {
        return Some(MissingName(id)), skip';
      }
      names[k] := Some(json.names[id]);
      ghost var row := IntRow(column.values, graphs.Length1);
      assert LineStep(json, graphsCount, graphs.Length1, i, p)
             == Ok(p.(graphs := Rows(graphs), maximums := maximums[..], colors := colors[..], names := names[..]));
    } else {
      skip' := skip + 1;
      assert Rows(graphs) == p.graphs;
    }
  }

  /** The constructor's new arrays: Java zero-fills them and fills object arrays with null. */
  method Allocate(gc: nat, vc: nat)
    returns (timeline: array<int>, graphs: array2<int>, maximums: array<int>, colors: array<int>,
             names: array<Option<string>>)
    ensures fresh(timeline) && fresh(graphs) && fresh(maximums) && fresh(colors) && fresh(names)
    ensures timeline != maximums && timeline != colors && maximums != colors
    ensures graphs.Length0 == gc && graphs.Length1 == vc && timeline.Length == vc
    ensures maximums.Length == gc && colors.Length == gc && names.Length == gc
    ensures Snapshot(timeline, graphs, maximums, colors, names, 0) == Init(gc, vc)
  {
    colors := new int[gc](_ => 0);
    names := new Option<string>[gc](_ => None);
    graphs := new int[gc, vc]((_, _) => 0);
    maximums := new int[gc](_ => 0);
    timeline := new int[vc](_ => 0);
    ghost var init := Init(gc, vc);
    assert Rows(graphs) == init.graphs by {
      forall k | 0 <= k < gc ensures Rows(graphs)[k] == init.graphs[k] { }
    }
    assert timeline[..] == init.timeline && maximums[..] == init.maximums;
    assert colors[..] == init.colors && names[..] == init.names;
  }

  /** The `ChartData(JSONObject)` constructor. */
  method Decode(json: ChartJson) returns (r: Result<ChartData, DecodeError>)
    ensures r == Decoded(json)
  {
    if |json.columns| == 0 {
      return Err(MissingColumn(0));
    }
    var graphsCount := |json.names|;
    var valuesCount := |json.columns[0].values|;
    var timeline, graphs, maximums, colors, names := Allocate(graphsCount, valuesCount);
    var skip := 0;
    var i := 0;
    while i < graphsCount + 1
      invariant 0 <= i <= graphsCount + 1
      invariant graphs.Length0 == graphsCount && graphs.Length1 == valuesCount
      invariant timeline.Length == valuesCount
      invariant maximums.Length == graphsCount && colors.Length == graphsCount && names.Length == graphsCount
      invariant Run(json, graphsCount, valuesCount, i) == Ok(Snapshot(timeline, graphs, maximums, colors, names, skip))
    {
      ghost var p := Snapshot(timeline, graphs, maximums, colors, names, skip);
      var err;
      err, skip := DecodeColumn(json, i, timeline, graphs, maximums, colors, names, skip);
      if err.Some? {
        DecodedFailsAt(json, i, p, err.value);
        return Err(err.value);
      }
      i := i + 1;
    }
    r := Ok(ChartData(graphsCount, valuesCount, timeline[..], Rows(graphs), maximums[..], colors[..], names[..]));
  }
}

/** What the decoded table says about the JSON columns it came from. */
module ChartDataFacts {
  import opened Common
  import opened ChartDataDecoder

  /** Number of "line" columns before `n`: the row the next "line" column fills. */
  function LineCount(json: ChartJson, n: nat): nat {
    n - NonLineCount(json, n)
  }

  lemma {:induction false} LineCountMonotone(json: ChartJson, i: nat, n: nat)
    requires i <= n
    ensures LineCount(json, i) <= LineCount(json, n)
    ensures i < n && TypeOf(json, i) == Some(TypeLine) ==> LineCount(json, i) < LineCount(json, n)
    decreases n
  {
    if i < n {
      LineCountMonotone(json, i, n - 1);
    }
  }

  /** Row k still holds what Java's allocation put there. */
  predicate Blank(p: Partial, vc: nat, k: nat)
    requires k < |p.graphs| && k < |p.maximums| && k < |p.colors| && k < |p.names|
  {
    p.graphs[k] == seq(vc, _ => 0) && p.maximums[k] == 0 && p.colors[k] == 0 && p.names[k] == None
  }

  lemma RunningMaxOfZeros(vc: nat)
    ensures RunningMax(0, seq(vc, _ => 0)) == 0
  {
    RunningMaxIsMax(0, seq(vc, _ => 0));
  }

  /** What one pass does to the rows: a "line" column writes row `i - skip` with
      its values, its running maximum, its colour and its name; every other row is kept. */
  lemma StepRows(json: ChartJson, gc: nat, vc: nat, i: nat, q: Partial, p: Partial)
    requires q.skip <= i && q.Shaped(gc, vc) && Step(json, gc, vc, i, q) == Ok(p)
    ensures p.Shaped(gc, vc)
    ensures TypeOf(json, i) == Some(TypeLine) ==>
              var k0 := i - q.skip;
              && k0 < gc && i < |json.columns| && vc <= |json.columns[i].values|
              && json.columns[i].id in json.colors && json.columns[i].id in json.names
              && p.graphs[k0] == IntRow(json.columns[i].values, vc)
              && p.maximums[k0] == RunningMax(q.maximums[k0], p.graphs[k0])
              && p.colors[k0] == json.colors[json.columns[i].id]
              && p.names[k0] == Some(json.names[json.columns[i].id])
    ensures forall k :: 0 <= k < gc && (TypeOf(json, i) != Some(TypeLine) || k != i - q.skip) ==>
              && p.graphs[k] == q.graphs[k] && p.maximums[k] == q.maximums[k]
              && p.colors[k] == q.colors[k] && p.names[k] == q.names[k]
  {
    if TypeOf(json, i) == Some(TypeLine) {
      assert LineStep(json, gc, vc, i, q) == Ok(p);
    }
  }

  /** One pass keeps the rows past the "line" columns seen so far blank and every
      maximum the running maximum of its row. */
  lemma BlankStep(json: ChartJson, gc: nat, vc: nat, i: nat, q: Partial, p: Partial)
    requires q.skip == NonLineCount(json, i) && q.Shaped(gc, vc) && Step(json, gc, vc, i, q) == Ok(p)
    requires forall k :: LineCount(json, i) <= k < gc ==> Blank(q, vc, k)
    requires forall k :: 0 <= k < gc ==> q.maximums[k] == RunningMax(0, q.graphs[k])
    ensures forall k :: LineCount(json, i + 1) <= k < gc ==> Blank(p, vc, k)
    ensures forall k :: 0 <= k < gc ==> p.maximums[k] == RunningMax(0, p.graphs[k])
  {
    StepRows(json, gc, vc, i, q, p);
    var line := TypeOf(json, i) == Some(TypeLine);
    var k0 := i - q.skip;
    assert LineCount(json, i) == k0;
    assert LineCount(json, i + 1) == if line then k0 + 1 else k0;
    forall k | LineCount(json, i + 1) <= k < gc ensures Blank(p, vc, k) {
      assert Blank(q, vc, k);
    }
    forall k | 0 <= k < gc ensures p.maximums[k] == RunningMax(0, p.graphs[k]) {
      if line && k == k0 {
        assert Blank(q, vc, k);
      }
    }
  }

  /** Rows past the "line" columns seen so far are untouched, and every
      maximum is the running maximum of its row started at zero. */
  lemma {:induction false} RunBlankRows(json: ChartJson, gc: nat, vc: nat, n: nat, p: Partial)
    requires Run(json, gc, vc, n) == Ok(p)
    ensures forall k :: LineCount(json, n) <= k < gc ==> Blank(p, vc, k)
    ensures forall k :: 0 <= k < gc ==> p.maximums[k] == RunningMax(0, p.graphs[k])
  {
    if n == 0 {
      RunningMaxOfZeros(vc);
    } else {
      var q :| Run(json, gc, vc, n - 1) == Ok(q);
      RunBlankRows(json, gc, vc, n - 1, q);
      BlankStep(json, gc, vc, n - 1, q, p);
    }
  }

  /** The row a "line" column fills holds its values, its running maximum,
      its colour and its name. */
  predicate Filled(json: ChartJson, vc: nat, p: Partial, i: nat, k: nat)
    requires k < |p.graphs| && k < |p.maximums| && k < |p.colors| && k < |p.names|
  {
    && i < |json.columns|
    && vc <= |json.columns[i].values|
    && json.columns[i].id in json.colors && json.columns[i].id in json.names
    && p.graphs[k] == IntRow(json.columns[i].values, vc)
    && p.maximums[k] == RunningMax(0, p.graphs[k])
    && p.colors[k] == json.colors[json.columns[i].id]
    && p.names[k] == Some(json.names[json.columns[i].id])
  }

  /** One pass keeps every row already filled and fills the row of a "line" column. */
  lemma FilledStep(json: ChartJson, gc: nat, vc: nat, i: nat, q: Partial, p: Partial)
    requires q.skip == NonLineCount(json, i) && q.Shaped(gc, vc) && Step(json, gc, vc, i, q) == Ok(p)
    requires forall j :: 0 <= j < i && TypeOf(json, j) == Some(TypeLine) ==>
               LineCount(json, j) < gc && Filled(json, vc, q, j, LineCount(json, j))
    requires forall k :: LineCount(json, i) <= k < gc ==> Blank(q, vc, k)
    requires forall k :: 0 <= k < gc ==> q.maximums[k] == RunningMax(0, q.graphs[k])
    ensures forall j :: 0 <= j <= i && TypeOf(json, j) == Some(TypeLine) ==>
              LineCount(json, j) < gc && Filled(json, vc, p, j, LineCount(json, j))
  {
    StepRows(json, gc, vc, i, q, p);
    BlankStep(json, gc, vc, i, q, p);
    forall j | 0 <= j < i && TypeOf(json, j) == Some(TypeLine)
      ensures LineCount(json, j) < gc && Filled(json, vc, p, j, LineCount(json, j))
    {
      LineCountMonotone(json, j, i);
    }
  }

  lemma {:induction false} RunFilledRows(json: ChartJson, gc: nat, vc: nat, n: nat, p: Partial)
    requires Run(json, gc, vc, n) == Ok(p)
    ensures forall i :: 0 <= i < n && TypeOf(json, i) == Some(TypeLine) ==>
              LineCount(json, i) < gc && Filled(json, vc, p, i, LineCount(json, i))
  {
    if n > 0 {
      var q :| Run(json, gc, vc, n - 1) == Ok(q);
      RunFilledRows(json, gc, vc, n - 1, q);
      RunBlankRows(json, gc, vc, n - 1, q);
      FilledStep(json, gc, vc, n - 1, q, p);
    }
  }

  /** The last "x" column before `n`, if any. */
  function LastX(json: ChartJson, n: nat): Option<nat>
    ensures LastX(json, n).Some? ==> LastX(json, n).value < n
  {
    if n == 0 then None
    else if TypeOf(json, n - 1) == Some(TypeX) then Some(n - 1)
    else LastX(json, n - 1)
  }

  lemma {:induction false} RunTimeline(json: ChartJson, gc: nat, vc: nat, n: nat, p: Partial)
    requires Run(json, gc, vc, n) == Ok(p)
    ensures match LastX(json, n)
            case None => p.timeline == seq(vc, _ => 0)
            case Some(i) => i < |json.columns| && vc <= |json.columns[i].values| &&
                            p.timeline == json.columns[i].values[..vc]
  {
    if n > 0 {
      var q :| Run(json, gc, vc, n - 1) == Ok(q);
      RunTimeline(json, gc, vc, n - 1, q);
      assert Step(json, gc, vc, n - 1, q) == Ok(p);
      if TypeOf(json, n - 1) == Some(TypeLine) {
        assert LineStep(json, gc, vc, n - 1, q) == Ok(p);
      }
    }
  }

  lemma {:induction false} RunPastEnd(json: ChartJson, gc: nat, vc: nat, n: nat)
    requires |json.columns| < n
    ensures Run(json, gc, vc, n).Err?
  {
    var m := |json.columns|;
    match Run(json, gc, vc, m) {
      case Err(_) => RunStaysFailed(json, gc, vc, m, n);
      case Ok(p) =>
        assert Run(json, gc, vc, m + 1) == Err(MissingColumn(m));
        RunStaysFailed(json, gc, vc, m + 1, n);
    }
  }

  lemma {:induction false} RunSamePrefix(json: ChartJson, extra: seq<Column>, gc: nat, vc: nat, n: nat)
    requires n <= |json.columns|
    ensures Run(json.(columns := json.columns + extra), gc, vc, n) == Run(json, gc, vc, n)
  {
    if n > 0 {
      RunSamePrefix(json, extra, gc, vc, n - 1);
      var longer := json.(columns := json.columns + extra);
      assert longer.columns[n - 1] == json.columns[n - 1];
      match Run(json, gc, vc, n - 1) {
        case Err(_) =>
        case Ok(q) =>
          if TypeOf(json, n - 1) == Some(TypeLine) {
            assert LineStep(longer, gc, vc, n - 1, q) == LineStep(json, gc, vc, n - 1, q);
          }
      }
    }
  }

  // ---------------------------------------------------------------------------
  // The same facts about the finished table.

  /** The loop needs `graphsCount + 1` columns: with fewer it throws. */
  lemma DecodedNeedsColumns(json: ChartJson)
    requires |json.columns| < |json.names| + 1
    ensures Decoded(json).Err?
  {
    if |json.columns| > 0 {
      RunPastEnd(json, |json.names|, |json.columns[0].values|, |json.names| + 1);
    }
  }

  /** Columns after the first `graphsCount + 1` are never read. */
  lemma DecodedIgnoresLaterColumns(json: ChartJson, extra: seq<Column>)
    requires |json.names| + 1 <= |json.columns|
    ensures Decoded(json.(columns := json.columns + extra)) == Decoded(json)
  {
    var longer := json.(columns := json.columns + extra);
    assert longer.columns[0] == json.columns[0];
    RunSamePrefix(json, extra, |json.names|, |json.columns[0].values|, |json.names| + 1);
  }

  /** The timeline is the last "x" column among the first `graphsCount + 1`,
      without its label; with no "x" column it stays all zeros. */
  lemma DecodedTimeline(json: ChartJson, t: ChartData)
    requires Decoded(json) == Ok(t)
    ensures match LastX(json, t.graphsCount + 1)
            case None => t.timeline == seq(t.valuesCount, _ => 0)
            case Some(i) => i < |json.columns| && t.valuesCount <= |json.columns[i].values| &&
                            forall j :: 0 <= j < t.valuesCount ==> t.timeline[j] == json.columns[i].values[j]
  {
    var gc, vc := |json.names|, |json.columns[0].values|;
    var p :| Run(json, gc, vc, gc + 1) == Ok(p);
    RunTimeline(json, gc, vc, gc + 1, p);
  }

  /** A "line" column `i` fills row `i - skip`, where `skip` counts the columns before it
      that are not "line" columns: values (narrowed to int), colour and name by its label. */
  lemma DecodedLineColumn(json: ChartJson, t: ChartData, i: nat)
    requires Decoded(json) == Ok(t)
    requires i <= t.graphsCount && TypeOf(json, i) == Some(TypeLine)
    ensures i - NonLineCount(json, i) < t.graphsCount
    ensures var k := i - NonLineCount(json, i);
            var column := json.columns[i];
            && t.valuesCount <= |column.values|
            && (forall j :: 0 <= j < t.valuesCount ==> t.graphs[k][j] == Int32Of(column.values[j]))
            && column.id in json.colors && t.colors[k] == json.colors[column.id]
            && column.id in json.names && t.names[k] == Some(json.names[column.id])
  {
    var gc, vc := |json.names|, |json.columns[0].values|;
    var p :| Run(json, gc, vc, gc + 1) == Ok(p);
    RunFilledRows(json, gc, vc, gc + 1, p);
  }

  /** Rows past the number of "line" columns are never written: columns of any other
      type fill nothing. */
  lemma DecodedBlankRows(json: ChartJson, t: ChartData, k: nat)
    requires Decoded(json) == Ok(t)
    requires LineCount(json, t.graphsCount + 1) <= k < t.graphsCount
    ensures t.graphs[k] == seq(t.valuesCount, _ => 0)
    ensures t.maximums[k] == 0 && t.colors[k] == 0 && t.names[k] == None
  {
    var gc, vc := |json.names|, |json.columns[0].values|;
    var p :| Run(json, gc, vc, gc + 1) == Ok(p);
    RunBlankRows(json, gc, vc, gc + 1, p);
    assert t == ChartData(gc, vc, p.timeline, p.graphs, p.maximums, p.colors, p.names);
    assert Blank(p, vc, k);
  }

  /** `maximums[k]` is the largest of zero and the values of row k. */
  lemma DecodedMaximums(json: ChartJson, t: ChartData, k: nat)
    requires Decoded(json) == Ok(t) && k < t.graphsCount
    ensures t.maximums[k] >= 0
    ensures forall j :: 0 <= j < t.valuesCount ==> t.maximums[k] >= t.graphs[k][j]
    ensures t.maximums[k] == 0 || exists j :: 0 <= j < t.valuesCount && t.maximums[k] == t.graphs[k][j]
  {
    var gc, vc := |json.names|, |json.columns[0].values|;
    var p :| Run(json, gc, vc, gc + 1) == Ok(p);
    RunBlankRows(json, gc, vc, gc + 1, p);
    RunningMaxIsMax(0, t.graphs[k]);
  }
}
