/**
 * The `TimeSeries` class (pbu/time_series.py:7-424): timestamped data held as columns or as records, the detected
 * shape, the value keys and the resolution, and the operations that add, fill, remove and align columns.
 * Dates are integer seconds standing for already parsed datetimes; the wall clock `now` is a parameter.
 */
module Series {
  import opened Results
  import opened Shapes
  import opened Resolution
  import opened Alignment

  /** The dates of a list given as input, read from every element in order (`map(lambda x: x[key], data)`). */
  function ElementDates(items: seq<Element>, dateKey: string): (r: Result<seq<int>>)
    ensures r.Ok? ==> (|r.value| == |items| &&
      forall i :: 0 <= i < |items| ==> items[i].DictElement? && dateKey in items[i].rec && r.value[i] == items[i].rec[dateKey])
    ensures r.Err? <==> exists i :: 0 <= i < |items| && (items[i].OtherElement? || dateKey !in items[i].rec)
    decreases |items|
  {
    if items == [] then Ok([])
    else match items[0]
      case OtherElement => Err(TypeError)
      case DictElement(_, rec) =>
        if dateKey !in rec then Err(KeyError)
        else
          var rest :- ElementDates(items[1..], dateKey);
          Ok([rec[dateKey]] + rest)
  }

  /** The state a successful constructor call leaves behind. */
  datatype Fields = Fields(kind: Kind, data: Data, keys: seq<string>, resolution: int)

  /**
   * The constructor (pbu/time_series.py:21-45): detect the shape (ValueError), read the dates (AttributeError
   * without a shape; for a list, ValueError when the first record lacks the date key, TypeError for a non-dict
   * element, KeyError for a record without the date key), take the first date (IndexError when there is none)
   * and detect the resolution.
   */
  function Construct(input: Input, dateKey: string, now: int): Result<Fields> {
    var (kind, keys) :- Detected(input, dateKey);
    if kind.None? then Err(AttributeError)
    else if input.DictInput? then
      if input.cols[dateKey] == [] then Err(IndexError)
      else
        var resolution :- Resolution.Resolution(input.cols[dateKey], now);
        Ok(Fields(DictOfLists, Columns(input.cols), keys, resolution))
    else
      var items := input.items;
      if dateKey !in items[0].rec then Err(ValueError)
      else
        var dates :- ElementDates(items, dateKey);
        var rows := seq(|items|, i requires 0 <= i < |items| => items[i].rec);
        var resolution :- Resolution.Resolution(dates, now);
        Ok(Fields(ListOfDicts, Rows(rows), keys, resolution))
  }

  /** The argument of `remove_series`: one key or a list of keys. */
  datatype KeySpec = Single(key: string) | Many(list: seq<string>)

  function Listed(spec: KeySpec): seq<string> {
    match spec
    case Single(key) => [key]
    case Many(list) => list
  }

  /** `TimeSeries(cols, key).translate_to_list_of_dicts()`: a new series over the columns, read back as records. */
  function Rebuild(cols: map<string, seq<int>>, dateKey: string): Result<seq<Record>> {
    if dateKey !in cols then Err(ValueError)
    else if cols[dateKey] == [] then Err(IndexError)
    else RowsOf(cols, dateKey)
  }

  /** The data after the column `key` is set to `vals`: in place for columns, through a rebuild for records. */
  function WithColumn(data: Data, dateKey: string, key: string, vals: seq<int>): (r: Result<Data>)
    ensures r.Ok? ==> r.value.Columns? == data.Columns?
    ensures data.Columns? ==> r == Ok(Columns(data.cols[key := vals]))
  {
    match data
    case Columns(cols) => Ok(Columns(cols[key := vals]))
    case Rows(rows) =>
      var cols :- ColumnsOf(rows);
      var out :- Rebuild(cols[key := vals], dateKey);
      Ok(Rows(out))
  }

  /** The number of dates `add_values` compares against: the records, or the entries of the date column. */
  function DateCount(data: Data, dateKey: string): Result<nat> {
    match data
    case Rows(rows) => Ok(|rows|)
    case Columns(cols) => if dateKey in cols then Ok(|cols[dateKey]|) else Err(KeyError)
  }

  /** `add_values` (pbu/time_series.py:161-192) on the state (data, keys). */
  function AddValuesTo(data: Data, keys: seq<string>, dateKey: string, key: string, vals: seq<int>)
    : Result<(Data, seq<string>)>
  {
    if key in keys then Err(AttributeError)
    else
      var n :- DateCount(data, dateKey);
      if |vals| != n then Err(ValueError)
      else
        var d :- WithColumn(data, dateKey, key, vals);
        Ok((d, keys + [key]))
  }

  /** `fill_values` (pbu/time_series.py:194-212) on the data; it leaves `keys` as it is. */
  function FillValuesTo(data: Data, keys: seq<string>, dateKey: string, key: string, c: int): Result<Data> {
    if key in keys then Err(AttributeError)
    else match data
      case Columns(cols) =>
        if dateKey !in cols then Err(KeyError)
        else WithColumn(data, dateKey, key, seq(|cols[dateKey]|, _ => c))
      case Rows(rows) => WithColumn(data, dateKey, key, seq(|rows|, _ => c))
  }

  /** Successive `del` of the keys; the flag is false when a key is missing, with the keys before it deleted. */
  function Drop(cols: map<string, seq<int>>, ks: seq<string>): (map<string, seq<int>>, bool)
    decreases |ks|
  {
    if ks == [] then (cols, true)
    else if ks[0] !in cols then (cols, false)
    else Drop(cols - {ks[0]}, ks[1..])
  }

  /**
   * `remove_series` (pbu/time_series.py:271-291) on the data. Columns are deleted in place one by one, so a missing
   * key leaves the keys before it deleted; records go through columns and are only replaced when every key was found.
   */
  function RemoveFrom(data: Data, dateKey: string, ks: seq<string>): (Data, Outcome) {
    if dateKey in ks then (data, Failed(AttributeError))
    else match data
      case Columns(cols) =>
        var dropped := Drop(cols, ks);
        (Columns(dropped.0), if dropped.1 then Done else Failed(KeyError))
      case Rows(rows) =>
        match ColumnsOf(rows)
        case Err(e) => (data, Failed(e))
        case Ok(cols) =>
          var dropped := Drop(cols, ks);
          if !dropped.1 then (data, Failed(KeyError))
          else match Rebuild(dropped.0, dateKey)
            case Err(e) => (data, Failed(e))
            case Ok(out) => (Rows(out), Done)
  }

  /** The closing loop of `add_series`: add each key of the other series with its values, stopping at the first exception. */
  function AddEach(data: Data, keys: seq<string>, dateKey: string, other: Data, ks: seq<string>)
    : (Data, seq<string>, Outcome)
    decreases |ks|
  {
    if ks == [] then (data, keys, Done)
    else match Values(other, ks[0])
      case Err(e) => (data, keys, Failed(e))
      case Ok(vals) =>
        match AddValuesTo(data, keys, dateKey, ks[0], vals)
        case Err(e) => (data, keys, Failed(e))
        case Ok(next) => AddEach(next.0, next.1, dateKey, other, ks[1..])
  }

  /** The resolution a series would detect (pbu/time_series.py:122-159). */
  function DetectedResolution(data: Data, dateKey: string, now: int): Result<int> {
    var dates :- Values(data, dateKey);
    Resolution.Resolution(dates, now)
  }

  /** The resolution `align_to_resolution` works with: the given one, or the detected one. */
  function Resolved(data: Data, dateKey: string, given: Option<int>, now: int): Result<int> {
    if given.Some? then Ok(given.value) else DetectedResolution(data, dateKey, now)
  }

  /**
   * Where the resolution `align_to_resolution` works with is known, its loop ends: the resolution is positive, or
   * the cursor starts at or after the end date so that the loop never runs.
   */
  predicate AlignmentEnds(data: Data, dateKey: string, given: Option<int>, start: Option<int>, end: Option<int>,
                          now: int) {
    Resolved(data, dateKey, given, now).Ok? ==> CursorEnds(data, dateKey, Resolved(data, dateKey, given, now).value, start, end)
  }

  /** `align_to_resolution` (pbu/time_series.py:293-376) on the data. */
  function AlignedData(data: Data, dateKey: string, keys: seq<string>, given: Option<int>, start: Option<int>,
                       end: Option<int>, now: int): Result<Data>
    requires AlignmentEnds(data, dateKey, given, start, end, now)
  {
    var r :- Resolved(data, dateKey, given, now);
    AlignData(data, dateKey, keys, r, start, end)
  }

  /** The state of both series after `add_series` (pbu/time_series.py:237-269), and how the call ended. */
  datatype Joined = Joined(data: Data, keys: seq<string>, otherData: Data, outcome: Outcome)

  function AddSeriesTo(data: Data, keys: seq<string>, dateKey: string, other: Data, otherKeys: seq<string>,
                       otherDateKey: string, keysToAdd: Option<seq<string>>, now: int): Joined
    requires AlignmentEnds(data, dateKey, None, None, None, now)
  {
    var checked := if keysToAdd.Some? then keysToAdd.value else otherKeys;
    if exists k :: k in checked && k in keys then Joined(data, keys, other, Failed(ValueError))
    else match DetectedResolution(data, dateKey, now)
      case Err(e) => Joined(data, keys, other, Failed(e))
      case Ok(r) => AlignAndAdd(data, keys, dateKey, other, otherKeys, otherDateKey, r)
  }

  /** `add_series` once the resolution `r` is known: align this series, then the other, then add its columns. */
  function AlignAndAdd(data: Data, keys: seq<string>, dateKey: string, other: Data, otherKeys: seq<string>,
                       otherDateKey: string, r: int): Joined
    requires CursorEnds(data, dateKey, r, None, None)
  {
    match AlignData(data, dateKey, keys, r, None, None)
    case Err(e) => Joined(data, keys, other, Failed(e))
    case Ok(aligned) => AddAligned(aligned, keys, dateKey, other, otherKeys, otherDateKey, r)
  }

  /** `add_series` once this series is aligned: align the other one to its first and last date, then add. */
  function AddAligned(data: Data, keys: seq<string>, dateKey: string, other: Data, otherKeys: seq<string>,
                      otherDateKey: string, r: int): Joined
    requires CursorEnds(data, dateKey, r, None, None)
  {
    match Values(data, dateKey)
    case Err(e) => Joined(data, keys, other, Failed(e))
    case Ok(dates) =>
      if dates == [] then Joined(data, keys, other, Failed(IndexError))
      else match AlignData(other, otherDateKey, otherKeys, r, Some(dates[0]), Some(dates[|dates| - 1]))
        case Err(e) => Joined(data, keys, other, Failed(e))
        case Ok(otherAligned) =>
          var added := AddEach(data, keys, dateKey, otherAligned, otherKeys);
          Joined(added.0, added.1, otherAligned, added.2)
  }

  /* ---------------------------------------------------------------- the class */

  class TimeSeries {
    var data: Data
    var keys: seq<string>
    var resolution: int
    const kind: Kind
    const dateKey: string

    /** The data is in the shape the series was detected with. */
    ghost predicate Valid()
      reads this
    {
      (kind == DictOfLists) == data.Columns?
    }

    constructor (fields: Fields, dateKey: string)
      requires (fields.kind == DictOfLists) == fields.data.Columns?
      ensures Valid()
      ensures kind == fields.kind && data == fields.data && keys == fields.keys && resolution == fields.resolution
      ensures this.dateKey == dateKey
    {
      kind := fields.kind;
      data := fields.data;
      keys := fields.keys;
      resolution := fields.resolution;
      this.dateKey := dateKey;
    }

    /** `get_values` (pbu/time_series.py:214-235). */
    function GetValues(key: string): Result<seq<int>>
      reads this
    {
      Values(data, key)
    }

    /** `set_resolution` (pbu/time_series.py:111-120): the given resolution, or the detected one. */
    method SetResolution(custom: Option<int>, now: int) returns (o: Outcome)
      modifies this
      ensures data == old(data) && keys == old(keys)
      ensures custom.Some? ==> o == Done && resolution == custom.value
      ensures custom.None? && DetectedResolution(data, dateKey, now).Ok? ==>
        o == Done && resolution == DetectedResolution(data, dateKey, now).value
      ensures custom.None? && DetectedResolution(data, dateKey, now).Err? ==>
        o == Failed(DetectedResolution(data, dateKey, now).error) && resolution == old(resolution)
    {
      if custom.Some? {
        resolution := custom.value;
        return Done;
      }
      var dates := GetValues(dateKey);
      if dates.Err? {
        return Failed(dates.error);
      }
      var detected := DetectResolution(dates.value, now);
      if detected.Err? {
        return Failed(detected.error);
      }
      resolution := detected.value;
      return Done;
    }

    /** `translate_to_list_of_dicts` (pbu/time_series.py:378-400). */
    method TranslateToListOfDicts() returns (r: Result<seq<Record>>)
      ensures data.Rows? ==> r == Ok(data.rows)
      ensures data.Columns? ==> r == RowsOf(data.cols, dateKey)
    {
      if data.Rows? {
        return Ok(data.rows);
      }
      r := ColumnsToRows(data.cols, dateKey);
    }

    /** `translate_to_dict_of_lists` (pbu/time_series.py:402-424). */
    method TranslateToDictOfLists() returns (r: Result<map<string, seq<int>>>)
      ensures data.Columns? ==> r == Ok(data.cols)
      ensures data.Rows? ==> r == ColumnsOf(data.rows)
    {
      if data.Columns? {
        return Ok(data.cols);
      }
      r := RowsToColumns(data.rows);
    }

    /** The data update shared by `add_values` and `fill_values` once their checks have passed. */
    method PutColumn(key: string, vals: seq<int>) returns (o: Outcome)
      requires Valid()
      modifies this
      ensures Valid() && keys == old(keys) && resolution == old(resolution)
      ensures WithColumn(old(data), dateKey, key, vals).Ok? ==>
        o == Done && data == WithColumn(old(data), dateKey, key, vals).value
      ensures WithColumn(old(data), dateKey, key, vals).Err? ==>
        o == Failed(WithColumn(old(data), dateKey, key, vals).error) && data == old(data)
    {
      if data.Columns? {
        data := Columns(data.cols[key := vals]);
        return Done;
      }
      var output := TranslateToDictOfLists();
      if output.Err? {
        return Failed(output.error);
      }
      var cols := output.value[key := vals];
      if dateKey !in cols {
        return Failed(ValueError);
      }
      if cols[dateKey] == [] {
        return Failed(IndexError);
      }
      var rows := ColumnsToRows(cols, dateKey);
      if rows.Err? {
        return Failed(rows.error);
      }
      data := Rows(rows.value);
      return Done;
    }

    /** `add_values` (pbu/time_series.py:161-192). */
    method AddValues(key: string, vals: seq<int>) returns (o: Outcome)
      requires Valid()
      modifies this
      ensures Valid() && resolution == old(resolution)
      ensures AddValuesTo(old(data), old(keys), dateKey, key, vals).Ok? ==>
        o == Done && (data, keys) == AddValuesTo(old(data), old(keys), dateKey, key, vals).value
      ensures AddValuesTo(old(data), old(keys), dateKey, key, vals).Err? ==>
        o == Failed(AddValuesTo(old(data), old(keys), dateKey, key, vals).error)
        && data == old(data) && keys == old(keys)
    {
      if key in keys {
        return Failed(AttributeError);
      }
      var length: int;
      if data.Rows? {
        length := |data.rows|;
      } else if dateKey in data.cols {
        length := |data.cols[dateKey]|;
      } else {
        return Failed(KeyError);
      }
      if |vals| != length {
        return Failed(ValueError);
      }
      o := PutColumn(key, vals);
      if o.Done? {
        keys := keys + [key];
      }
    }

    /** `fill_values` (pbu/time_series.py:194-212). */
    method FillValues(key: string, c: int) returns (o: Outcome)
      requires Valid()
      modifies this
      ensures Valid() && keys == old(keys) && resolution == old(resolution)
      ensures FillValuesTo(old(data), keys, dateKey, key, c).Ok? ==>
        o == Done && data == FillValuesTo(old(data), keys, dateKey, key, c).value
      ensures FillValuesTo(old(data), keys, dateKey, key, c).Err? ==>
        o == Failed(FillValuesTo(old(data), keys, dateKey, key, c).error) && data == old(data)
    {
      if key in keys {
        return Failed(AttributeError);
      }
      var length: nat;
      if data.Rows? {
        length := |data.rows|;
      } else if dateKey in data.cols {
        length := |data.cols[dateKey]|;
      } else {
        return Failed(KeyError);
      }
      o := PutColumn(key, seq(length, _ => c));
    }

    /** `remove_series` (pbu/time_series.py:271-291); `keys` is left as it is. */
    method RemoveSeries(spec: KeySpec) returns (o: Outcome)
      requires Valid()
      modifies this
      ensures Valid() && keys == old(keys) && resolution == old(resolution)
      ensures (data, o) == RemoveFrom(old(data), dateKey, Listed(spec))
    {
      var ks := Listed(spec);
      if dateKey in ks {
        return Failed(AttributeError);
      }
      if data.Columns? {
        var i := 0;
        while i < |ks|
          invariant 0 <= i <= |ks| && data.Columns? && keys == old(keys) && resolution == old(resolution)
          invariant Drop(data.cols, ks[i..]) == Drop(old(data).cols, ks)
          decreases |ks| - i
        {
          assert ks[i..][0] == ks[i];
          if ks[i] !in data.cols {
            return Failed(KeyError);
          }
          data := Columns(data.cols - {ks[i]});
          assert ks[i..][1..] == ks[i + 1..];
          i := i + 1;
        }
        assert ks[i..] == [];
        return Done;
      }
      var output := TranslateToDictOfLists();
      if output.Err? {
        return Failed(output.error);
      }
      var cols := output.value;
      for i := 0 to |ks|
        invariant Drop(cols, ks[i..]) == Drop(output.value, ks)
      {
        assert ks[i..][0] == ks[i];
        if ks[i] !in cols {
          return Failed(KeyError);
        }
        cols := cols - {ks[i]};
        assert ks[i..][1..] == ks[i + 1..];
      }
      assert ks[|ks|..] == [];
      if dateKey !in cols {
        return Failed(ValueError);
      }
      if cols[dateKey] == [] {
        return Failed(IndexError);
      }
      var rows := ColumnsToRows(cols, dateKey);
      if rows.Err? {
        return Failed(rows.error);
      }
      data := Rows(rows.value);
      return Done;
    }

    /** `align_to_resolution` (pbu/time_series.py:293-376). */
    method AlignToResolution(given: Option<int>, start: Option<int>, end: Option<int>, now: int) returns (o: Outcome)
      requires Valid() && AlignmentEnds(data, dateKey, given, start, end, now)
      modifies this
      ensures Valid() && keys == old(keys) && resolution == old(resolution)
      ensures AlignedData(old(data), dateKey, keys, given, start, end, now).Ok? ==>
        o == Done && data == AlignedData(old(data), dateKey, keys, given, start, end, now).value
      ensures AlignedData(old(data), dateKey, keys, given, start, end, now).Err? ==>
        o == Failed(AlignedData(old(data), dateKey, keys, given, start, end, now).error) && data == old(data)
    {
      var r: int;
      if given.None? {
        var dates := GetValues(dateKey);
        if dates.Err? {
          return Failed(dates.error);
        }
        var detected := DetectResolution(dates.value, now);
        if detected.Err? {
          return Failed(detected.error);
        }
        r := detected.value;
      } else {
        r := given.value;
      }
      var dates := GetValues(dateKey);
      if dates.Err? {
        return Failed(dates.error);
      }
      if dates.value == [] {
        return Failed(IndexError);
      }
      var first := if start.Some? then start.value else dates.value[0];
      var last := if end.Some? then end.value else dates.value[|dates.value| - 1];
      var orig := TranslateToListOfDicts();
      if orig.Err? {
        return Failed(orig.error);
      }
      var out := Align(orig.value, dateKey, keys, r, first, last);
      if out.Err? {
        return Failed(out.error);
      }
      if data.Rows? {
        data := Rows(out.value);
        return Done;
      }
      if out.value == [] {
        return Failed(ValueError);
      }
      var check := RowValues(out.value, dateKey);
      if check.Err? {
        return Failed(check.error);
      }
      var cols := RowsToColumns(out.value);
      if cols.Err? {
        return Failed(cols.error);
      }
      data := Columns(cols.value);
      return Done;
    }

    /** `add_series` (pbu/time_series.py:237-269): the other series is aligned in place to this one's dates. */
    method AddSeries(other: TimeSeries, keysToAdd: Option<seq<string>>, now: int) returns (o: Outcome)
      requires other != this && Valid() && other.Valid()
      requires AlignmentEnds(data, dateKey, None, None, None, now)
      modifies this, other
      ensures Valid() && other.Valid()
      ensures resolution == old(resolution) && other.resolution == old(other.resolution) && other.keys == old(other.keys)
      ensures Joined(data, keys, other.data, o)
           == AddSeriesTo(old(data), old(keys), dateKey, old(other.data), other.keys, other.dateKey, keysToAdd, now)
    {
      var checked := if keysToAdd.Some? then keysToAdd.value else other.keys;
      var duplicate := AnyIn(checked, keys);
      if duplicate {
        return Failed(ValueError);
      }
      var dates := GetValues(dateKey);
      if dates.Err? {
        return Failed(dates.error);
      }
      var detected := DetectResolution(dates.value, now);
      if detected.Err? {
        return Failed(detected.error);
      }
      o := AlignAndAddFrom(other, detected.value, now);
    }

    /** `add_series` from the alignment of this series on (pbu/time_series.py:262-269). */
    method AlignAndAddFrom(other: TimeSeries, r: int, now: int) returns (o: Outcome)
      requires other != this && Valid() && other.Valid() && CursorEnds(data, dateKey, r, None, None)
      modifies this, other
      ensures Valid() && other.Valid()
      ensures resolution == old(resolution) && other.resolution == old(other.resolution) && other.keys == old(other.keys)
      ensures Joined(data, keys, other.data, o)
           == AlignAndAdd(old(data), old(keys), dateKey, old(other.data), other.keys, other.dateKey, r)
    {
      o := AlignToResolution(Some(r), None, None, now);
      if o.Failed? {
        return;
      }
      o := AddAlignedFrom(other, r, now);
    }

    /** `add_series` from the alignment of the other series on (pbu/time_series.py:265-269). */
    method AddAlignedFrom(other: TimeSeries, r: int, now: int) returns (o: Outcome)
      requires other != this && Valid() && other.Valid() && CursorEnds(data, dateKey, r, None, None)
      modifies this, other
      ensures Valid() && other.Valid()
      ensures resolution == old(resolution) && other.resolution == old(other.resolution) && other.keys == old(other.keys)
      ensures Joined(data, keys, other.data, o)
           == AddAligned(old(data), old(keys), dateKey, old(other.data), other.keys, other.dateKey, r)
    {
      var aligned := GetValues(dateKey);
      if aligned.Err? {
        return Failed(aligned.error);
      }
      if aligned.value == [] {
        return Failed(IndexError);
      }
      var first, last := aligned.value[0], aligned.value[|aligned.value| - 1];
      o := other.AlignToResolution(Some(r), Some(first), Some(last), now);
      if o.Failed? {
        return;
      }
      o := AddAll(other);
    }

    /** The closing loop of `add_series` (pbu/time_series.py:268-269). */
    method AddAll(other: TimeSeries) returns (o: Outcome)
      requires other != this && Valid()
      modifies this
      ensures Valid() && resolution == old(resolution)
      ensures (data, keys, o) == AddEach(old(data), old(keys), dateKey, other.data, other.keys)
    {
      for i := 0 to |other.keys|
        invariant Valid() && resolution == old(resolution)
        invariant AddEach(data, keys, dateKey, other.data, other.keys[i..])
               == AddEach(old(data), old(keys), dateKey, other.data, other.keys)
      {
        var key := other.keys[i];
        assert other.keys[i..][0] == key && other.keys[i..][1..] == other.keys[i + 1..];
        var vals := other.GetValues(key);
        if vals.Err? {
          return Failed(vals.error);
        }
        o := AddValues(key, vals.value);
        if o.Failed? {
          return;
        }
      }
      assert other.keys[|other.keys|..] == [];
      return Done;
    }
  }

  /** The duplicate check of `add_series` (pbu/time_series.py:255-258): does any of `checked` occur in `keys`? */
  method AnyIn(checked: seq<string>, keys: seq<string>) returns (found: bool)
    ensures found <==> exists k :: k in checked && k in keys
  {
    for i := 0 to |checked|
      invariant forall j :: 0 <= j < i ==> checked[j] !in keys
    {
      if checked[i] in keys {
        return true;
      }
    }
    return false;
  }

  /** The constructor with its checks: the series, or the exception it raises. */
  method Create(input: Input, dateKey: string, now: int) returns (r: Result<TimeSeries>)
    ensures Construct(input, dateKey, now).Err? ==> r == Err(Construct(input, dateKey, now).error)
    ensures Construct(input, dateKey, now).Ok? ==>
      var f := Construct(input, dateKey, now).value;
      && r.Ok? && fresh(r.value) && r.value.Valid() && r.value.dateKey == dateKey
      && r.value.kind == f.kind && r.value.data == f.data && r.value.keys == f.keys
      && r.value.resolution == f.resolution
  {
    var detected := CheckInputData(input, dateKey);
    if detected.Err? {
      return Err(detected.error);
    }
    var (kind, keys) := detected.value;
    if kind.None? {
      return Err(AttributeError);
    }
    var data: Data;
    var dates: seq<int>;
    if input.DictInput? {
      data, dates := Columns(input.cols), input.cols[dateKey];
    } else {
      var items := input.items;
      if dateKey !in items[0].rec {
        return Err(ValueError);
      }
      var read := ElementDates(items, dateKey);
      if read.Err? {
        return Err(read.error);
      }
      data, dates := Rows(seq(|items|, i requires 0 <= i < |items| => items[i].rec)), read.value;
    }
    if dates == [] {
      return Err(IndexError);
    }
    var detectedResolution := DetectResolution(dates, now);
    if detectedResolution.Err? {
      return Err(detectedResolution.error);
    }
    var series := new TimeSeries(Fields(kind.value, data, keys, detectedResolution.value), dateKey);
    return Ok(series);
  }

  /* ---------------------------------------------------------------- properties */

  /** The keys the constructor reads the value keys from: the dict's own, or the first record's. */
  function FirstKeys(input: Input): seq<string> {
    match input
    case DictInput(order, _) => order
    case ListInput(items) => if |items| > 0 && items[0].DictElement? then items[0].order else []
    case _ => []
  }

  /**
   * A constructed series holds its data in the detected shape (columns exactly for a dict), its value keys are the
   * other keys of the dict or first record, once each and in their insertion order, its date column is readable and not empty, and its resolution is the
   * one detected on that column.
   */
  lemma ConstructedSeries(input: Input, dateKey: string, now: int)
    requires Construct(input, dateKey, now).Ok?
    ensures var f := Construct(input, dateKey, now).value;
      && (f.kind == DictOfLists) == f.data.Columns?
      && (f.kind == DictOfLists <==> input.DictInput?)
      && dateKey !in f.keys
      && (forall k :: k in f.keys <==> k in FirstKeys(input) && k != dateKey)
      && (InsertionOrdered(input) ==> Distinct(f.keys) && forall k :: k in f.keys <==> k in InputKeys(input) && k != dateKey)
      && Values(f.data, dateKey).Ok? && Values(f.data, dateKey).value != []
      && Resolution.Resolution(Values(f.data, dateKey).value, now) == Ok(f.resolution)
  {
    WithoutKeepsOthers(FirstKeys(input), dateKey);
    if input.ListInput? {
      var items := input.items;
      var dates := ElementDates(items, dateKey).value;
      var rows := seq(|items|, i requires 0 <= i < |items| => items[i].rec);
      assert forall i :: 0 <= i < |items| ==> dateKey in rows[i] && rows[i][dateKey] == dates[i];
      assert RowValues(rows, dateKey).Ok?;
      assert RowValues(rows, dateKey).value == dates;
    }
  }

  /** Successive deletion removes exactly the listed keys when they are distinct and all present, and nothing else. */
  lemma {:induction false} DropSpec(cols: map<string, seq<int>>, ks: seq<string>)
    ensures Drop(cols, ks).0.Keys <= cols.Keys
    ensures forall k :: k in Drop(cols, ks).0 ==> Drop(cols, ks).0[k] == cols[k]
    ensures Drop(cols, ks).1 <==> Distinct(ks) && forall k :: k in ks ==> k in cols
    ensures Drop(cols, ks).1 ==> Drop(cols, ks).0.Keys == cols.Keys - set k | k in ks
    decreases |ks|
  {
    if ks != [] && ks[0] in cols {
      var x, rest := ks[0], ks[1..];
      DropSpec(cols - {x}, rest);
      assert ks == [x] + rest;
      assert forall k :: k in ks <==> k == x || k in rest;
      if Distinct(ks) {
        assert x !in rest by {
          forall j | 0 <= j < |rest| ensures rest[j] != x { assert rest[j] == ks[j + 1]; }
        }
        assert Distinct(rest) by {
          forall i, j | 0 <= i < j < |rest| ensures rest[i] != rest[j] { assert rest[i] == ks[i + 1]; }
        }
      }
      if Distinct(rest) && x !in rest {
        assert Distinct(ks) by {
          forall i, j | 0 <= i < j < |ks| ensures ks[i] != ks[j] {
            if i > 0 { assert ks[i] == rest[i - 1] && ks[j] == rest[j - 1]; }
            else { assert ks[j] == rest[j - 1]; }
          }
        }
      }
    }
  }

  /**
   * `remove_series` on columns: AttributeError when the date key is named; otherwise it completes exactly when the
   * keys are distinct and all present, leaving the other columns untouched, and never adds or changes a column.
   */
  lemma RemoveColumns(cols: map<string, seq<int>>, dateKey: string, ks: seq<string>)
    ensures dateKey in ks ==> RemoveFrom(Columns(cols), dateKey, ks) == (Columns(cols), Failed(AttributeError))
    ensures dateKey !in ks ==>
      var (d, o) := RemoveFrom(Columns(cols), dateKey, ks);
      && d.Columns? && d.cols.Keys <= cols.Keys && (forall k :: k in d.cols ==> d.cols[k] == cols[k])
      && (o == Done <==> Distinct(ks) && forall k :: k in ks ==> k in cols)
      && (o == Done ==> d.cols.Keys == cols.Keys - set k | k in ks)
      && (o != Done ==> o == Failed(KeyError))
  {
    DropSpec(cols, ks);
  }

  /** `remove_series` on homogeneous records: every record loses exactly the named keys. */
  lemma RemoveFromRows(rows: seq<Record>, dateKey: string, ks: seq<string>)
    requires rows != [] && Homogeneous(rows) && dateKey in rows[0] && dateKey !in ks
    requires Distinct(ks) && forall k :: k in ks ==> k in rows[0]
    ensures RemoveFrom(Rows(rows), dateKey, ks)
         == (Rows(seq(|rows|, i requires 0 <= i < |rows| => rows[i] - set k | k in ks)), Done)
  {
    ColumnsOfHomogeneous(rows);
    var cols := ColumnsOf(rows).value;
    DropSpec(cols, ks);
    var c := Drop(cols, ks).0;
    assert dateKey in c && |c[dateKey]| == |rows|;
    assert Rectangular(c, |rows|);
    assert !exists k :: k in c && |c[k]| < |c[dateKey]|;
    var out := RowsOf(c, dateKey).value;
    var want := seq(|rows|, i requires 0 <= i < |rows| => rows[i] - set k | k in ks);
    forall i | 0 <= i < |rows|
      ensures out[i] == want[i]
    {
      assert out[i] == RowAt(c, i);
      assert rows[i].Keys == cols.Keys;
    }
    assert out == want;
    assert Rebuild(c, dateKey) == Ok(out);
  }

  /** Setting a column on homogeneous records that hold the date key sets it in every record and changes nothing else. */
  lemma AddColumnToRows(rows: seq<Record>, dateKey: string, key: string, vals: seq<int>)
    requires rows != [] && Homogeneous(rows) && dateKey in rows[0] && |vals| == |rows|
    ensures WithColumn(Rows(rows), dateKey, key, vals)
         == Ok(Rows(seq(|rows|, i requires 0 <= i < |rows| => rows[i][key := vals[i]])))
  {
    ColumnsOfHomogeneous(rows);
    var cols := ColumnsOf(rows).value;
    var cols2 := cols[key := vals];
    assert Rectangular(cols2, |rows|);
    assert dateKey in cols2 && |cols2[dateKey]| == |rows|;
    assert !exists k :: k in cols2 && |cols2[k]| < |cols2[dateKey]|;
    var out := RowsOf(cols2, dateKey).value;
    var want := seq(|rows|, i requires 0 <= i < |rows| => rows[i][key := vals[i]]);
    forall i | 0 <= i < |rows|
      ensures out[i] == want[i]
    {
      assert out[i] == RowAt(cols2, i);
      assert rows[i].Keys == cols.Keys;
    }
    assert out == want;
    assert Rebuild(cols2, dateKey) == Ok(out);
  }

  /** The data a series can be read from column by column: columns, or homogeneous records holding the date key. */
  predicate WellFormed(data: Data, dateKey: string) {
    data.Rows? ==> data.rows != [] && Homogeneous(data.rows) && dateKey in data.rows[0]
  }

  /** After setting a column on well-formed records, `get_values` reads the new column back and every other one as before. */
  lemma ReadBack(rows: seq<Record>, dateKey: string, key: string, vals: seq<int>)
    requires WellFormed(Rows(rows), dateKey) && |vals| == |rows|
    ensures WithColumn(Rows(rows), dateKey, key, vals).Ok?
    ensures Values(WithColumn(Rows(rows), dateKey, key, vals).value, key) == Ok(vals)
    ensures forall k :: k != key ==> Values(WithColumn(Rows(rows), dateKey, key, vals).value, k) == Values(Rows(rows), k)
  {
    AddColumnToRows(rows, dateKey, key, vals);
    ReadsOfSetRecords(rows, key, vals);
  }

  /** Records that each had `key` set to the matching value read back those values, and every other key as before. */
  lemma ReadsOfSetRecords(rows: seq<Record>, key: string, vals: seq<int>)
    requires |vals| == |rows| > 0
    ensures var out := seq(|rows|, i requires 0 <= i < |rows| => rows[i][key := vals[i]]);
      && RowValues(out, key) == Ok(vals)
      && forall k :: k != key ==> RowValues(out, k) == RowValues(rows, k)
  {
    var out := seq(|rows|, i requires 0 <= i < |rows| => rows[i][key := vals[i]]);
    assert RowValues(out, key).Ok?;
    assert forall i :: 0 <= i < |rows| ==> out[i][key] == vals[i];
    assert RowValues(out, key).value == vals;
    forall k | k != key
      ensures RowValues(out, k) == RowValues(rows, k)
    {
      assert forall i :: 0 <= i < |rows| ==> (k in out[i] <==> k in rows[i]);
      assert forall i :: 0 <= i < |rows| && k in rows[i] ==> out[i][k] == rows[i][k];
      if RowValues(rows, k).Ok? {
        assert RowValues(out, k).Ok?;
        assert RowValues(out, k).value == RowValues(rows, k).value;
      } else {
        assert RowValues(out, k).Err?;
        assert (k in out[0]) == (k in rows[0]);
        assert RowValues(out, k).error == RowValues(rows, k).error;
      }
    }
  }

  /**
   * `add_values`: AttributeError exactly when the key is already listed; otherwise ValueError when the length differs
   * from the number of dates, and success when it matches; on success the key is appended to `keys`, the shape is kept, the new column reads
   * back as the values and every other column reads as before.
   */
  lemma AddValuesSpec(data: Data, keys: seq<string>, dateKey: string, key: string, vals: seq<int>)
    requires WellFormed(data, dateKey)
    ensures var r := AddValuesTo(data, keys, dateKey, key, vals);
      && (r == Err(AttributeError) <==> key in keys)
      && (key !in keys && DateCount(data, dateKey).Ok? && |vals| != DateCount(data, dateKey).value ==> r == Err(ValueError))
      && (key !in keys && DateCount(data, dateKey).Ok? && |vals| == DateCount(data, dateKey).value ==> r.Ok?)
      && (r.Ok? ==>
        && r.value.1 == keys + [key]
        && r.value.0.Columns? == data.Columns?
        && Values(r.value.0, key) == Ok(vals)
        && forall k :: k != key ==> Values(r.value.0, k) == Values(data, k))
  {
    if data.Rows? && key !in keys && |vals| == |data.rows| {
      ReadBack(data.rows, dateKey, key, vals);
    }
  }

  /**
   * `fill_values`: AttributeError exactly when the key is already listed, and success for a new key wherever the
   * dates can be counted; on success the new column reads back as
   * the constant once per date, every other column reads as before and `keys` is not extended.
   */
  lemma FillValuesSpec(data: Data, keys: seq<string>, dateKey: string, key: string, c: int)
    requires WellFormed(data, dateKey)
    ensures var r := FillValuesTo(data, keys, dateKey, key, c);
      && (r == Err(AttributeError) <==> key in keys)
      && (key !in keys && DateCount(data, dateKey).Ok? ==> r.Ok?)
      && (r.Ok? ==>
        && r.value.Columns? == data.Columns?
        && DateCount(data, dateKey).Ok?
        && Values(r.value, key) == Ok(seq(DateCount(data, dateKey).value, _ => c))
        && forall k :: k != key ==> Values(r.value, k) == Values(data, k))
  {
    var r := FillValuesTo(data, keys, dateKey, key, c);
    if data.Rows? && key !in keys {
      ReadBack(data.rows, dateKey, key, seq(|data.rows|, _ => c));
    }
  }

  /** The closing loop of `add_series` only ever appends to `keys`, and appends every key when it completes. */
  lemma {:induction false} AddEachKeys(data: Data, keys: seq<string>, dateKey: string, other: Data, ks: seq<string>)
    ensures var (d, k, o) := AddEach(data, keys, dateKey, other, ks);
      && keys <= k && k <= keys + ks
      && (o == Done ==> k == keys + ks)
      && d.Columns? == data.Columns?
    decreases |ks|
  {
    if ks != [] && Values(other, ks[0]).Ok? {
      var r := AddValuesTo(data, keys, dateKey, ks[0], Values(other, ks[0]).value);
      if r.Ok? {
        AddEachKeys(r.value.0, r.value.1, dateKey, other, ks[1..]);
        assert keys + [ks[0]] + ks[1..] == keys + ks;
      }
    }
  }

  /** Every record holds the date key, as every record `align_to_resolution` produces does. */
  predicate AllDated(data: Data, dateKey: string) {
    data.Rows? ==> forall i :: 0 <= i < |data.rows| ==> dateKey in data.rows[i]
  }

  /** A column that gathered a value from every record means every record has that key. */
  lemma {:induction false} ColumnFull(rows: seq<Record>, k: string)
    requires |Column(rows, k)| == |rows|
    ensures forall i :: 0 <= i < |rows| ==> k in rows[i]
  {
    if rows != [] {
      var init := rows[..|rows| - 1];
      assert |Column(init, k)| <= |init|;
      ColumnFull(init, k);
      forall i | 0 <= i < |rows|
        ensures k in rows[i]
      {
        if i < |rows| - 1 {
          assert rows[i] == init[i];
        }
      }
    }
  }

  /**
   * Setting a column on dated records through the rebuild, when it succeeds, sets it in every record: the rebuild
   * refuses any record that lacks a key of the first, so no record loses or gains anything else.
   */
  lemma WithColumnOnDatedRows(rows: seq<Record>, dateKey: string, key: string, vals: seq<int>)
    requires forall i :: 0 <= i < |rows| ==> dateKey in rows[i]
    requires |vals| == |rows| && WithColumn(Rows(rows), dateKey, key, vals).Ok?
    ensures rows != []
    ensures WithColumn(Rows(rows), dateKey, key, vals).value
         == Rows(seq(|rows|, i requires 0 <= i < |rows| => rows[i][key := vals[i]]))
  {
    var cols := ColumnsOf(rows).value;
    var cols2 := cols[key := vals];
    ColumnOfFullKey(rows, dateKey);
    assert |cols2[dateKey]| == |rows|;
    var out := RowsOf(cols2, dateKey).value;
    assert WithColumn(Rows(rows), dateKey, key, vals).value == Rows(out);
    forall k | k in rows[0] && k != key
      ensures forall i :: 0 <= i < |rows| ==> k in rows[i] && cols2[k][i] == rows[i][k]
    {
      assert cols2[k] == Column(rows, k) && |cols2[k]| >= |rows|;
      ColumnFull(rows, k);
      ColumnOfFullKey(rows, k);
    }
    var want := seq(|rows|, i requires 0 <= i < |rows| => rows[i][key := vals[i]]);
    forall i | 0 <= i < |rows|
      ensures out[i] == want[i]
    {
      assert out[i] == RowAt(cols2, i);
      assert rows[i].Keys <= rows[0].Keys;
    }
    assert out == want;
  }

  /** On dated data a successful `add_values` reads the new column back, keeps every other one, and stays dated. */
  lemma AddValuesReadsBack(data: Data, keys: seq<string>, dateKey: string, key: string, vals: seq<int>)
    requires AllDated(data, dateKey) && AddValuesTo(data, keys, dateKey, key, vals).Ok?
    ensures var d := AddValuesTo(data, keys, dateKey, key, vals).value.0;
      && AllDated(d, dateKey)
      && Values(d, key) == Ok(vals)
      && forall k :: k != key ==> Values(d, k) == Values(data, k)
  {
    if data.Rows? {
      WithColumnOnDatedRows(data.rows, dateKey, key, vals);
      ReadsOfSetRecords(data.rows, key, vals);
    }
  }

  /**
   * The closing loop of `add_series` leaves every column it does not add as it was, and when it completes every
   * added column reads as the other series' column.
   */
  lemma {:induction false} AddEachValues(data: Data, keys: seq<string>, dateKey: string, other: Data, ks: seq<string>)
    requires AllDated(data, dateKey)
    ensures var (d, _, o) := AddEach(data, keys, dateKey, other, ks);
      && AllDated(d, dateKey)
      && (forall k :: k !in ks ==> Values(d, k) == Values(data, k))
      && (o == Done ==> forall k :: k in ks ==> Values(d, k) == Values(other, k))
    decreases |ks|
  {
    if ks != [] && Values(other, ks[0]).Ok? {
      var vals := Values(other, ks[0]).value;
      var r := AddValuesTo(data, keys, dateKey, ks[0], vals);
      if r.Ok? {
        AddValuesReadsBack(data, keys, dateKey, ks[0], vals);
        AddEachValues(r.value.0, r.value.1, dateKey, other, ks[1..]);
        assert forall k :: k in ks <==> k == ks[0] || k in ks[1..];
      }
    }
  }

  /**
   * When `add_series` completes, every column of the other series reads in this one as in the other series aligned
   * to this one's dates, and every other column keeps the value this series' own alignment gave it.
   */
  lemma AddSeriesValues(data: Data, keys: seq<string>, dateKey: string, other: Data, otherKeys: seq<string>,
                        otherDateKey: string, keysToAdd: Option<seq<string>>, now: int)
    requires AlignmentEnds(data, dateKey, None, None, None, now)
    ensures var j := AddSeriesTo(data, keys, dateKey, other, otherKeys, otherDateKey, keysToAdd, now);
      var aligned := AlignedData(data, dateKey, keys, None, None, None, now);
      j.outcome == Done ==>
        && aligned.Ok?
        && (forall k :: k in otherKeys ==> Values(j.data, k) == Values(j.otherData, k))
        && (forall k :: k !in otherKeys ==> Values(j.data, k) == Values(aligned.value, k))
  {
    var j := AddSeriesTo(data, keys, dateKey, other, otherKeys, otherDateKey, keysToAdd, now);
    if j.outcome == Done {
      var r := DetectedResolution(data, dateKey, now).value;
      var aligned := AlignData(data, dateKey, keys, r, None, None).value;
      var dates := Values(aligned, dateKey).value;
      var otherAligned := AlignData(other, otherDateKey, otherKeys, r, Some(dates[0]), Some(dates[|dates| - 1])).value;
      AddEachValues(aligned, keys, dateKey, otherAligned, otherKeys);
    }
  }

  /** Past the alignment of this series, `add_series` only appends to `keys` and keeps the shape. */
  lemma AddAlignedKeys(data: Data, keys: seq<string>, dateKey: string, other: Data, otherKeys: seq<string>,
                       otherDateKey: string, r: int)
    requires CursorEnds(data, dateKey, r, None, None)
    ensures var j := AddAligned(data, keys, dateKey, other, otherKeys, otherDateKey, r);
      && keys <= j.keys && j.keys <= keys + otherKeys
      && (j.outcome == Done ==> j.keys == keys + otherKeys)
      && j.data.Columns? == data.Columns?
  {
    if Values(data, dateKey).Ok? && Values(data, dateKey).value != [] {
      var dates := Values(data, dateKey).value;
      var o := AlignData(other, otherDateKey, otherKeys, r, Some(dates[0]), Some(dates[|dates| - 1]));
      if o.Ok? {
        AddEachKeys(data, keys, dateKey, o.value, otherKeys);
      }
    }
  }

  /**
   * `add_series` raises ValueError when a key to add is already listed; otherwise it only appends to `keys`, appends
   * every key of the other series when it completes (whatever `keys_to_add` said), and keeps the shape.
   */
  lemma AddSeriesKeys(data: Data, keys: seq<string>, dateKey: string, other: Data, otherKeys: seq<string>,
                      otherDateKey: string, keysToAdd: Option<seq<string>>, now: int)
    requires AlignmentEnds(data, dateKey, None, None, None, now)
    ensures var checked := if keysToAdd.Some? then keysToAdd.value else otherKeys;
      var j := AddSeriesTo(data, keys, dateKey, other, otherKeys, otherDateKey, keysToAdd, now);
      && ((exists k :: k in checked && k in keys) ==> j == Joined(data, keys, other, Failed(ValueError)))
      && keys <= j.keys && j.keys <= keys + otherKeys
      && (j.outcome == Done ==> j.keys == keys + otherKeys)
      && j.data.Columns? == data.Columns?
  {
    var checked := if keysToAdd.Some? then keysToAdd.value else otherKeys;
    if !(exists k :: k in checked && k in keys) && DetectedResolution(data, dateKey, now).Ok? {
      var r := DetectedResolution(data, dateKey, now).value;
      var aligned := AlignData(data, dateKey, keys, r, None, None);
      if aligned.Ok? {
        AddAlignedKeys(aligned.value, keys, dateKey, other, otherKeys, otherDateKey, r);
      }
    }
  }

  /**
   * Two records dated before the current time detect a negative resolution (the first date against now). The
   * cursor then starts after the last date, the loop never runs, and the series is left with no records.
   */
  lemma ShortSeriesAlignsToNothing()
    ensures var rows := [map["t" := 0, "v" := 0], map["t" := 60, "v" := 1]];
      && DetectedResolution(Rows(rows), "t", 1000) == Ok(-1000)
      && AlignmentEnds(Rows(rows), "t", None, None, None, 1000)
      && AlignedData(Rows(rows), "t", ["v"], None, None, None, 1000) == Ok(Rows([]))
  {
    var rows := [map["t" := 0, "v" := 0], map["t" := 60, "v" := 1]];
    assert "t" in rows[0] && "t" in rows[1] && rows[0]["t"] == 0 && rows[1]["t"] == 60;
    var dates := RowValues(rows, "t").value;
    assert |dates| == 2 && dates[0] == 0 && dates[1] == 60;
    assert dates == [0, 60];
    TwoPointResolution(0, 60, 1000);
    assert DateRange.Ticks(1000, 60, -1000) == [];
  }

  /** `keys_to_add` only feeds the duplicate check: past it, two choices of keys to add lead to the same result. */
  lemma KeysToAddOnlyChecked(data: Data, keys: seq<string>, dateKey: string, other: Data, otherKeys: seq<string>,
                             otherDateKey: string, a: seq<string>, b: seq<string>, now: int)
    requires AlignmentEnds(data, dateKey, None, None, None, now)
    requires !(exists k :: k in a && k in keys) && !(exists k :: k in b && k in keys)
    ensures AddSeriesTo(data, keys, dateKey, other, otherKeys, otherDateKey, Some(a), now)
         == AddSeriesTo(data, keys, dateKey, other, otherKeys, otherDateKey, Some(b), now)
  {
  }
}
