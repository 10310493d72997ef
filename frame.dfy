/**
 * The input table: a pandas DataFrame indexed by UTC timestamps, seen as its
 * index and its ordered sequence of labelled columns.
 */
module Frame {
  import opened NetCDF
  import Epoch

  datatype Column = Column(name: string, dtype: DType, cells: seq<Value>)

  datatype DataFrame = DataFrame(index: seq<Epoch.CivilTime>, columns: seq<Column>)

  function Names(cols: seq<Column>): (r: seq<string>)
    ensures |r| == |cols|
    ensures forall i :: 0 <= i < |cols| ==> r[i] == cols[i].name
  {
    if cols == [] then [] else [cols[0].name] + Names(cols[1..])
  }

  /** The index holds real timestamps. */
  predicate Timestamped(df: DataFrame) {
    forall i :: 0 <= i < |df.index| ==> Epoch.Valid(df.index[i])
  }

  /** Dropping the first column keeps the names distinct. */
  lemma DistinctTail(cols: seq<Column>)
    requires cols != [] && Distinct(Names(cols))
    ensures Distinct(Names(cols[1..]))
  {
    assert forall i :: 0 <= i < |cols| - 1 ==> Names(cols[1..])[i] == Names(cols)[i + 1];
  }

  /** A table as the writers are meant to receive it: real timestamps, one cell per row in every column, no column name twice. */
  predicate Valid(df: DataFrame) {
    && Timestamped(df)
    && (forall j :: 0 <= j < |df.columns| ==> |df.columns[j].cells| == |df.index|)
    && Distinct(Names(df.columns))
  }

  /** `df[name]`: the column called `name`, or `None` where pandas raises `KeyError`. */
  function Lookup(cols: seq<Column>, name: string): (r: Option<Column>)
    ensures r.Some? <==> name in Names(cols)
    ensures r.Some? ==> r.value in cols && r.value.name == name
  {
    if cols == [] then None
    else if cols[0].name == name then Some(cols[0])
    else Lookup(cols[1..], name)
  }

  /** Keeping the columns a predicate selects, in their original order. */
  predicate Subsequence(xs: seq<Column>, ys: seq<Column>) {
    if xs == [] then true
    else if ys == [] then false
    else if xs[0] == ys[0] then Subsequence(xs[1..], ys[1..])
    else Subsequence(xs, ys[1..])
  }
}
