/** How the `/query` handler turns its result cursor into row maps. Every
    column is scanned into one catch-all slot; a byte-slice value becomes a
    string and any other value is kept as the driver produced it. A failing
    scan or a failed iteration discards every row gathered so far. */
module Rows {
  import opened Wrappers
  import opened Seqs
  import opened Fmt
  import Url

  /** What a catch-all scan slot holds: a byte slice, or some other value of
      the driver's choosing (`V`; Go's `nil` among them). */
  datatype Value<V> = Bytes(data: seq<Url.byte>) | Native(native: V)

  /** A value in a row map: text decoded from bytes, or the native value. */
  datatype Cell<V> = Text(text: seq<Url.byte>) | Kept(kept: V)

  /** One row of the response: column name to cell. */
  type Row<V> = map<string, Cell<V>>

  /** What `rows.Scan` produced for one cursor row: the row's values, or the
      driver's scan error. */
  datatype Fetch<V> = Fetched(values: seq<Value<V>>) | ScanFailed(error: string)

  /** A query's result as the handler sees it: the outcome of
      `rows.Columns()`, the rows `rows.Next()` reached, and the error
      `rows.Err()` reports once `Next` stops. */
  datatype Cursor<V> = Cursor(columns: Result<seq<string>>, rows: seq<Fetch<V>>, iterError: Option<string>)

  /** How draining the cursor ended. */
  datatype Drain<V> = Drained(rows: seq<Row<V>>) | ScanFailure(error: string) | IterationFailure(error: string)

  /** The byte-slice type switch: bytes become text, the rest is unchanged. */
  function Decode<V>(v: Value<V>): (c: Cell<V>)
    ensures v.Bytes? <==> c.Text?
    ensures v.Bytes? ==> c.text == v.data
    ensures v.Native? ==> c.kept == v.native
  {
    match v
    case Bytes(b) => Text(b)
    case Native(x) => Kept(x)
  }

  /** `rows.Scan` into one slot per column: the driver's error, or
      `database/sql`'s own error when the row's width is not the column count.
      The handler sizes its slots from `rows.Columns()`, so that second error
      does not arise from a driver whose rows match its columns; the model
      keeps it because a driver's row is an input here. */
  function Scan<V>(columns: seq<string>, fetch: Fetch<V>): (r: Result<seq<Value<V>>>)
    ensures r.Ok? <==> fetch.Fetched? && |fetch.values| == |columns|
    ensures r.Ok? ==> r.value == fetch.values
    ensures fetch.ScanFailed? ==> r == Err(fetch.error)
  {
    match fetch
    case ScanFailed(e) => Err(e)
    case Fetched(values) =>
      if |values| != |columns| then
        Err("sql: expected " + Decimal(|values|) + " destination arguments in Scan, not " + Decimal(|columns|))
      else Ok(values)
  }

  /** The row map, built column by column; a repeated column name keeps the
      value of its last occurrence. */
  function RowMap<V>(columns: seq<string>, values: seq<Value<V>>): (m: Row<V>)
    requires |values| == |columns|
    ensures m.Keys == set c | c in columns
    ensures forall k :: k in m ==> m[k] == Decode(values[LastIndexOf(columns, k)])
    decreases |columns|
  {
    if |columns| == 0 then map[]
    else
      var n := |columns| - 1;
      var front := RowMap(columns[..n], values[..n]);
      assert forall k :: k in columns[..n] && k != columns[n] ==> LastIndexOf(columns, k) == LastIndexOf(columns[..n], k) by {
        assert columns == columns[..n] + [columns[n]];
      }
      front[columns[n] := Decode(values[n])]
  }

  /** With distinct column names, each column's cell is its own value. */
  lemma RowMapDistinct<V>(columns: seq<string>, values: seq<Value<V>>, i: nat)
    requires |values| == |columns| && i < |columns|
    requires forall a, b :: 0 <= a < b < |columns| ==> columns[a] != columns[b]
    ensures RowMap(columns, values)[columns[i]] == Decode(values[i])
  {
    LastIndexOfIsLast(columns, columns[i], i);
  }

  /** A repeated column name: the later column's value overwrites the earlier. */
  lemma DuplicateColumnLaterWins<V>(columns: seq<string>, values: seq<Value<V>>, i: nat, j: nat)
    requires |values| == |columns| && i < j < |columns| && columns[i] == columns[j]
    requires forall k :: j < k < |columns| ==> columns[k] != columns[j]
    ensures RowMap(columns, values)[columns[i]] == Decode(values[j])
  {
    LastIndexOfIsLast(columns, columns[j], j);
  }

  /** Index of the first cursor row that fails to scan, or the row count. */
  function FirstFailure<V>(columns: seq<string>, fetches: seq<Fetch<V>>): (k: nat)
    ensures k <= |fetches|
    ensures forall i :: 0 <= i < k ==> Scan(columns, fetches[i]).Ok?
    ensures k < |fetches| ==> Scan(columns, fetches[k]).Err?
  {
    if |fetches| == 0 then 0
    else if Scan(columns, fetches[0]).Err? then 0
    else 1 + FirstFailure(columns, fetches[1..])
  }

  /** The row maps of cursor rows that all scan. */
  function RowMaps<V>(columns: seq<string>, fetches: seq<Fetch<V>>): (rows: seq<Row<V>>)
    requires forall i :: 0 <= i < |fetches| ==> Scan(columns, fetches[i]).Ok?
    ensures |rows| == |fetches|
    ensures forall i :: 0 <= i < |fetches| ==> rows[i] == RowMap(columns, Scan(columns, fetches[i]).value)
  {
    seq(|fetches|, i requires 0 <= i < |fetches| => RowMap(columns, Scan(columns, fetches[i]).value))
  }

  /** The drain stated without the loop: the first scan failure, else the
      iteration error, else every row. */
  function Materialise<V>(columns: seq<string>, fetches: seq<Fetch<V>>, iterError: Option<string>): Drain<V> {
    var k := FirstFailure(columns, fetches);
    if k < |fetches| then ScanFailure(Scan(columns, fetches[k]).error)
    else if iterError.Some? then IterationFailure(iterError.value)
    else Drained(RowMaps(columns, fetches))
  }

  /** The handler's `for rows.Next()` loop followed by its `rows.Err()` check. */
  method DrainRows<V>(columns: seq<string>, fetches: seq<Fetch<V>>, iterError: Option<string>) returns (r: Drain<V>)
    ensures r.Drained? <==> iterError.None? && forall i :: 0 <= i < |fetches| ==> Scan(columns, fetches[i]).Ok?
    ensures r.Drained? ==> |r.rows| == |fetches|
    ensures r.Drained? ==> forall i :: 0 <= i < |fetches| ==>
      r.rows[i] == RowMap(columns, fetches[i].values) && r.rows[i].Keys == set c | c in columns
    ensures r.ScanFailure? ==>
      exists i :: 0 <= i < |fetches| && Scan(columns, fetches[i]) == Err(r.error) &&
        forall j :: 0 <= j < i ==> Scan(columns, fetches[j]).Ok?
    ensures r.IterationFailure? ==> iterError == Some(r.error)
    ensures r == Materialise(columns, fetches, iterError)
  {
    var rows: seq<Row<V>> := [];
    var i := 0;
    while i < |fetches|
      invariant 0 <= i <= |fetches|
      invariant forall j :: 0 <= j < i ==> Scan(columns, fetches[j]).Ok?
      invariant rows == RowMaps(columns, fetches[..i])
    {
      var scanned := Scan(columns, fetches[i]);
      if scanned.Err? {
        assert FirstFailure(columns, fetches) == i;
        return ScanFailure(scanned.error);
      }
      rows := rows + [RowMap(columns, scanned.value)];
      i := i + 1;
      assert fetches[..i][..i - 1] == fetches[..i - 1];
    }
    assert fetches[..i] == fetches;
    assert FirstFailure(columns, fetches) == |fetches|;
    if iterError.Some? {
      return IterationFailure(iterError.value);
    }
    return Drained(rows);
  }
}
