/**
 * The two shapes a TimeSeries holds its data in (pbu/time_series.py): a dict of columns keyed by field name
 * ("dict_list") or a list of records ("list_dict"), the detection of the shape and the translations between them.
 * Timestamps and values are integers; a timestamp stands for an already parsed datetime in whole seconds.
 */
module Shapes {
  import opened Results

  /** One row-shaped item: field name to value, the date key included. */
  type Record = map<string, int>

  /** The `type` attribute of a TimeSeries. */
  datatype Kind = DictOfLists | ListOfDicts

  /** The `data` attribute of a TimeSeries. */
  datatype Data = Columns(cols: map<string, seq<int>>) | Rows(rows: seq<Record>)

  /** One element of a list given as input: a dict (with its keys in insertion order) or anything else. */
  datatype Element = DictElement(order: seq<string>, rec: Record) | OtherElement

  /** The `input_data` handed to the constructor. A dict carries its keys in insertion order. */
  datatype Input =
    | NoInput
    | DictInput(order: seq<string>, cols: map<string, seq<int>>)
    | ListInput(items: seq<Element>)
    | OtherInput

  predicate Distinct(s: seq<string>) {
    forall i, j :: 0 <= i < j < |s| ==> s[i] != s[j]
  }

  /** `order` is an insertion order of the key set `keys`: every key exactly once. */
  predicate Orders(order: seq<string>, keys: set<string>) {
    Distinct(order) && (forall k :: k in order ==> k in keys) && (forall k :: k in keys ==> k in order)
  }

  /** Every dict of the input carries an insertion order of its own keys, as a Python dict does. */
  predicate InsertionOrdered(input: Input) {
    match input
    case DictInput(order, cols) => Orders(order, cols.Keys)
    case ListInput(items) =>
      forall i :: 0 <= i < |items| && items[i].DictElement? ==> Orders(items[i].order, items[i].rec.Keys)
    case _ => true
  }

  /** The keys `_check_input_data` reads: the dict's own, or the first record's. */
  function InputKeys(input: Input): set<string> {
    match input
    case DictInput(_, cols) => cols.Keys
    case ListInput(items) => if |items| > 0 && items[0].DictElement? then items[0].rec.Keys else {}
    case _ => {}
  }

  /** `order` with every occurrence of `key` dropped, the rest kept in order. */
  function Without(order: seq<string>, key: string): (r: seq<string>)
    ensures |r| <= |order|
  {
    if order == [] then []
    else Without(order[..|order| - 1], key) + (if order[|order| - 1] != key then [order[|order| - 1]] else [])
  }

  /** The keys `_check_input_data` reports are exactly the other keys, and distinct when the dict's keys are. */
  lemma {:induction false} WithoutKeepsOthers(order: seq<string>, key: string)
    ensures forall k :: k in Without(order, key) <==> k in order && k != key
    ensures Distinct(order) ==> Distinct(Without(order, key))
  {
    if order != [] {
      var init, last := order[..|order| - 1], order[|order| - 1];
      WithoutKeepsOthers(init, key);
      assert order == init + [last];
      var w := Without(init, key);
      assert Without(order, key) == w + (if last != key then [last] else []);
      if Distinct(order) {
        assert Distinct(init);
        assert last !in init;
        assert last !in w;
      }
    }
  }

  /** Dropping a key commutes with concatenation, so the kept keys stay in their insertion order. */
  lemma {:induction false} WithoutKeepsOrder(a: seq<string>, b: seq<string>, key: string)
    ensures Without(a + b, key) == Without(a, key) + Without(b, key)
  {
    if b != [] {
      var init, last := b[..|b| - 1], b[|b| - 1];
      WithoutKeepsOrder(a, init, key);
      assert a + b == (a + init) + [last];
      assert (a + b)[..|a + b| - 1] == a + init;
    } else {
      assert a + b == a;
    }
  }

  /**
   * `_check_input_data`: a dict holding the date key is column-shaped, a non-empty list whose first element is a
   * dict is row-shaped; the keys are the other keys of the dict (of the first record) in insertion order. Missing
   * data gives no shape and no keys; anything else raises ValueError.
   */
  method CheckInputData(input: Input, dateKey: string) returns (r: Result<(Option<Kind>, seq<string>)>)
    ensures r == Detected(input, dateKey)
    ensures input.NoInput? ==> r == Ok((None, []))
    ensures input.DictInput? && dateKey in input.cols ==>
      r == Ok((Some(DictOfLists), Without(input.order, dateKey)))
    ensures input.ListInput? && |input.items| > 0 && input.items[0].DictElement? ==>
      r == Ok((Some(ListOfDicts), Without(input.items[0].order, dateKey)))
    ensures r.Err? <==>
      !input.NoInput? &&
      !(input.DictInput? && dateKey in input.cols) &&
      !(input.ListInput? && |input.items| > 0 && input.items[0].DictElement?)
    ensures r.Err? ==> r.error == ValueError
    ensures r.Ok? && InsertionOrdered(input) ==>
      Distinct(r.value.1) && forall k :: k in r.value.1 <==> k in InputKeys(input) && k != dateKey
  {
    if input.NoInput? {
      return Ok((None, []));
    }
    var order: seq<string>;
    var kind: Kind;
    if input.DictInput? && dateKey in input.cols {
      order, kind := input.order, DictOfLists;
    } else if input.ListInput? && |input.items| > 0 && input.items[0].DictElement? {
      order, kind := input.items[0].order, ListOfDicts;
    } else {
      return Err(ValueError);
    }
    var result: seq<string> := [];
    for i := 0 to |order|
      invariant result == Without(order[..i], dateKey)
    {
      assert order[..i + 1][..i] == order[..i];
      if order[i] != dateKey {
        result := result + [order[i]];
      }
    }
    assert order[..|order|] == order;
    WithoutKeepsOthers(order, dateKey);
    return Ok((Some(kind), result));
  }

  /** What `_check_input_data` returns, as a value. */
  function Detected(input: Input, dateKey: string): Result<(Option<Kind>, seq<string>)> {
    match input
    case NoInput => Ok((None, []))
    case DictInput(order, cols) =>
      if dateKey in cols then Ok((Some(DictOfLists), Without(order, dateKey))) else Err(ValueError)
    case ListInput(items) =>
      if |items| > 0 && items[0].DictElement? then Ok((Some(ListOfDicts), Without(items[0].order, dateKey)))
      else Err(ValueError)
    case OtherInput => Err(ValueError)
  }

  /* ---------------------------------------------------------------- rows to columns */

  /** Every record holds only keys of the first record: otherwise translate_to_dict_of_lists raises KeyError. */
  predicate KeysInFirst(rows: seq<Record>)
    requires rows != []
  {
    forall i :: 0 <= i < |rows| ==> rows[i].Keys <= rows[0].Keys
  }

  /** The values under `key` of the records that have it, in order: the list the translation appends to. */
  function Column(rows: seq<Record>, key: string): (c: seq<int>)
    ensures |c| <= |rows|
  {
    if rows == [] then []
    else Column(rows[..|rows| - 1], key) + (if key in rows[|rows| - 1] then [rows[|rows| - 1][key]] else [])
  }

  /** translate_to_dict_of_lists on row-shaped data (pbu/time_series.py:414-424). */
  function ColumnsOf(rows: seq<Record>): Result<map<string, seq<int>>>
  {
    if rows == [] then Err(IndexError)
    else if !KeysInFirst(rows) then Err(KeyError)
    else Ok(map k | k in rows[0].Keys :: Column(rows, k))
  }

  /** The loops of translate_to_dict_of_lists. */
  method RowsToColumns(rows: seq<Record>) returns (r: Result<map<string, seq<int>>>)
    ensures r == ColumnsOf(rows)
  {
    if |rows| == 0 {
      return Err(IndexError);
    }
    var result: map<string, seq<int>> := map[];
    var unseen := rows[0].Keys;
    while unseen != {}
      invariant unseen <= rows[0].Keys
      invariant result.Keys == rows[0].Keys - unseen
      invariant forall k :: k in result ==> result[k] == []
      decreases unseen
    {
      var key :| key in unseen;
      result := result[key := []];
      unseen := unseen - {key};
    }
    for i := 0 to |rows|
      invariant result.Keys == rows[0].Keys
      invariant forall k :: k in result ==> result[k] == Column(rows[..i], k)
      invariant forall j :: 0 <= j < i ==> rows[j].Keys <= rows[0].Keys
    {
      var item := rows[i];
      var pending := item.Keys;
      while pending != {}
        invariant pending <= item.Keys
        invariant result.Keys == rows[0].Keys
        invariant item.Keys - pending <= rows[0].Keys
        invariant forall k :: k in result ==>
          result[k] == Column(rows[..i], k) + (if k in item && k !in pending then [item[k]] else [])
        decreases pending
      {
        var key :| key in pending;
        if key !in result {
          assert !(rows[i].Keys <= rows[0].Keys);
          return Err(KeyError);
        }
        result := result[key := result[key] + [item[key]]];
        pending := pending - {key};
      }
      assert rows[..i + 1][..i] == rows[..i];
    }
    assert rows[..|rows|] == rows;
    assert KeysInFirst(rows);
    assert result == map k | k in rows[0].Keys :: Column(rows, k);
    return Ok(result);
  }

  /* ---------------------------------------------------------------- columns to rows */

  /** The record at `index`: every column's value at that index. */
  function RowAt(cols: map<string, seq<int>>, index: nat): (rec: Record)
    requires forall k :: k in cols ==> index < |cols[k]|
    ensures rec.Keys == cols.Keys
  {
    map k | k in cols :: cols[k][index]
  }

  /** translate_to_list_of_dicts on column-shaped data (pbu/time_series.py:389-400). */
  function RowsOf(cols: map<string, seq<int>>, dateKey: string): Result<seq<Record>>
  {
    if dateKey !in cols then Err(KeyError)
    else if exists k :: k in cols && |cols[k]| < |cols[dateKey]| then Err(IndexError)
    else Ok(seq(|cols[dateKey]|, i requires 0 <= i < |cols[dateKey]| => RowAt(cols, i)))
  }

  /** The loops of translate_to_list_of_dicts. */
  method ColumnsToRows(cols: map<string, seq<int>>, dateKey: string) returns (r: Result<seq<Record>>)
    ensures r == RowsOf(cols, dateKey)
  {
    if dateKey !in cols {
      return Err(KeyError);
    }
    var n := |cols[dateKey]|;
    var result: seq<Record> := [];
    for index := 0 to n
      invariant |result| == index
      invariant forall k :: k in cols ==> index <= |cols[k]|
      invariant forall j :: 0 <= j < index ==> result[j] == RowAt(cols, j)
    {
      var item: Record := map[];
      var pending := cols.Keys;
      while pending != {}
        invariant pending <= cols.Keys
        invariant item.Keys == cols.Keys - pending
        invariant forall k :: k in item ==> index < |cols[k]| && item[k] == cols[k][index]
        decreases pending
      {
        var key :| key in pending;
        if index >= |cols[key]| {
          assert |cols[key]| < |cols[dateKey]|;
          return Err(IndexError);
        }
        item := item[key := cols[key][index]];
        pending := pending - {key};
      }
      assert item == RowAt(cols, index);
      result := result + [item];
    }
    assert !exists k :: k in cols && |cols[k]| < |cols[dateKey]|;
    assert result == seq(n, i requires 0 <= i < n => RowAt(cols, i));
    return Ok(result);
  }

  /* ---------------------------------------------------------------- round trips */

  /** Every column has length `n`. */
  predicate Rectangular(cols: map<string, seq<int>>, n: nat) {
    forall k :: k in cols ==> |cols[k]| == n
  }

  /** Every record has the key set of the first. */
  predicate Homogeneous(rows: seq<Record>) {
    forall i :: 0 <= i < |rows| ==> rows[i].Keys == rows[0].Keys
  }

  /** When every record has `key`, its column is the projection of the records on `key`. */
  lemma {:induction false} ColumnOfFullKey(rows: seq<Record>, key: string)
    requires forall i :: 0 <= i < |rows| ==> key in rows[i]
    ensures |Column(rows, key)| == |rows|
    ensures forall i :: 0 <= i < |rows| ==> Column(rows, key)[i] == rows[i][key]
  {
    if rows != [] {
      ColumnOfFullKey(rows[..|rows| - 1], key);
    }
  }

  /** Columns -> rows -> columns gives back the columns, when all columns are equally long and not empty. */
  lemma ColumnsRoundTrip(cols: map<string, seq<int>>, dateKey: string, n: nat)
    requires dateKey in cols && n > 0 && Rectangular(cols, n)
    ensures RowsOf(cols, dateKey).Ok?
    ensures |RowsOf(cols, dateKey).value| == n
    ensures ColumnsOf(RowsOf(cols, dateKey).value) == Ok(cols)
  {
    var rows := RowsOf(cols, dateKey).value;
    assert forall i :: 0 <= i < n ==> rows[i] == RowAt(cols, i);
    assert Homogeneous(rows);
    var back := map k | k in rows[0].Keys :: Column(rows, k);
    forall k | k in cols
      ensures back[k] == cols[k]
    {
      ColumnOfFullKey(rows, k);
    }
    assert back == cols;
  }

  /** Homogeneous records translate into equally long columns holding their values index by index. */
  lemma ColumnsOfHomogeneous(rows: seq<Record>)
    requires rows != [] && Homogeneous(rows)
    ensures ColumnsOf(rows).Ok?
    ensures ColumnsOf(rows).value.Keys == rows[0].Keys
    ensures Rectangular(ColumnsOf(rows).value, |rows|)
    ensures forall k, i :: k in rows[0] && 0 <= i < |rows| ==> ColumnsOf(rows).value[k][i] == rows[i][k]
  {
    assert KeysInFirst(rows);
    var cols := ColumnsOf(rows).value;
    forall k | k in cols
      ensures |cols[k]| == |rows|
      ensures forall i :: 0 <= i < |rows| ==> cols[k][i] == rows[i][k]
    {
      ColumnOfFullKey(rows, k);
    }
  }

  /** Rows -> columns -> rows gives back the records, when they share one key set that holds the date key. */
  lemma RowsRoundTrip(rows: seq<Record>, dateKey: string)
    requires rows != [] && Homogeneous(rows) && dateKey in rows[0]
    ensures ColumnsOf(rows).Ok?
    ensures RowsOf(ColumnsOf(rows).value, dateKey) == Ok(rows)
  {
    ColumnsOfHomogeneous(rows);
    var cols := ColumnsOf(rows).value;
    assert |cols[dateKey]| == |rows|;
    assert !exists k :: k in cols && |cols[k]| < |cols[dateKey]|;
    var back := RowsOf(cols, dateKey).value;
    assert |back| == |rows|;
    forall i | 0 <= i < |rows|
      ensures back[i] == rows[i]
    {
      assert back[i] == RowAt(cols, i);
      assert rows[i].Keys == cols.Keys;
    }
    assert back == rows;
  }

  /** An empty column-shaped series cannot make the round trip: the list of no records has no first record. */
  lemma EmptyColumnsDoNotRoundTrip(cols: map<string, seq<int>>, dateKey: string)
    requires dateKey in cols && Rectangular(cols, 0)
    ensures RowsOf(cols, dateKey) == Ok([])
    ensures ColumnsOf([]) == Err(IndexError)
  {
    assert RowsOf(cols, dateKey).Ok?;
    assert |RowsOf(cols, dateKey).value| == 0;
  }

  /* ---------------------------------------------------------------- get_values on rows */

  /** `get_values` on row-shaped data (pbu/time_series.py:227-233). */
  function RowValues(rows: seq<Record>, key: string): (r: Result<seq<int>>)
    ensures r.Ok? ==> |r.value| == |rows| && forall i :: 0 <= i < |rows| ==> key in rows[i] && r.value[i] == rows[i][key]
    ensures r.Err? <==> rows == [] || exists i :: 0 <= i < |rows| && key !in rows[i]
  {
    if rows == [] then Err(IndexError)
    else if key !in rows[0] then Err(ValueError)
    else if exists i :: 0 <= i < |rows| && key !in rows[i] then Err(KeyError)
    else Ok(seq(|rows|, i requires 0 <= i < |rows| => rows[i][key]))
  }

  /** `get_values(key)` (pbu/time_series.py:214-233): a column of column-shaped data, a projection of row-shaped data. */
  function Values(data: Data, key: string): (r: Result<seq<int>>)
    ensures data.Columns? ==> (r.Ok? <==> key in data.cols) && (r.Ok? ==> r.value == data.cols[key])
    ensures data.Columns? && r.Err? ==> r.error == ValueError
    ensures data.Rows? ==> r == RowValues(data.rows, key)
  {
    match data
    case Columns(cols) => if key !in cols then Err(ValueError) else Ok(cols[key])
    case Rows(rows) => RowValues(rows, key)
  }
}
