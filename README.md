# python-basic-utils, modelled in Dafny

This project models the core of the `pbu` Python utility library and proves properties of that model.

- **`TimeSeries`** (pbu/time_series.py) holds timestamped data in one of two shapes:
  - a dict of columns ("dict_list");
  - a list of records ("list_dict").

  It detects the shape and the value keys, and detects the resolution as the most frequent gap between dates. It
  adds, fills and removes columns, translates between the two shapes, aligns the series to a fixed resolution
  (interpolating missing records), adds another series to itself, and builds date ranges.
- **`JsonDocument`** (pbu/json_document.py) writes an object's attributes to a JSON dict, and reads them back,
  under the names of a subclass-defined attribute mapping. It also copies attributes from an update object and maps
  lists both ways.
- **`default_options`** (pbu/default_options.py) merges user options over defaults.
- **MongoDB helpers** (pbu/mongo_store.py):
  - the `$set`/`$unset` update builders;
  - the `_id` and version handling of `create`, `update_one` and `update`;
  - the id and version fields of `AbstractMongoDocument`.
- **MySQL helpers** (pbu/mysql_store.py):
  - the statement templates and Python's `str.format` as the store applies it to them;
  - `get_field_list` and `create_select_query`;
  - the choice of date format in `parse_to_date`.

Modules, one per file:
- `Results`: the Python exceptions as an `Error` datatype, with `Result`, `Option` and `Outcome`.
- `Values`: the Python values the serialisers pass around, with `str()` and `join`.
- `Shapes`, `Resolution`, `DateRange`, `Alignment`, `Series`: the time series. The `TimeSeries` class is in `Series`.
- `JsonDocuments`, `DefaultOptions`, `MongoStore`, `MysqlStore`: the other four parts.

Every loop of the source is a Dafny method whose loop is proved against a specification function, for example
`ensures r == Resolution(dates, now)`. The properties are proved about those functions as lemmas.

How values are represented:
- Timestamps and series values are integers. A timestamp stands for an already parsed datetime, in seconds.
- The wall clock `now` is a parameter.
- A Python dict's key order is kept (as a sequence) wherever it shows in a result. For the constructor's input,
  `Shapes.InsertionOrdered` ties each such sequence to the dict's own keys, each listed once:
  - the keys `_check_input_data` reports;
  - the attribute mapping of a `JsonDocument`;
  - the field list of a MySQL store.

Behaviour the model follows where the code differs from what its docstrings suggest:
- `align_to_resolution`:
  - A record within half a resolution of a tick is taken with its own timestamp, not moved onto the tick.
  - Interpolation starts from the previous record and adds the full gap to the next record at every step, not a
    fraction of it. So the records between two real ones overshoot. `Alignment.AlignTrace` shows the middle record
    of (0, 0) and (120, 10) at resolution 60 holding 10.
  - Before any record is consumed there is no previous record. A start date earlier than the first record therefore
    yields copies of that record dated after it (`Alignment.FirstGapIsZero`).
  - The read index is never checked. An end date one resolution past the last record raises IndexError
    (`Alignment.PastLastRecordFails`).
- `fill_values` and `remove_series` do not update `keys`.
- `add_series` uses `keys_to_add` only for its duplicate check, and then adds every key of the other series
  (`Series.KeysToAddOnlyChecked`).
- `get_resolution` measures the first date against the current time. With exactly two dates that seed difference
  ties with the real gap and wins (`Resolution.TwoPointResolution`). Two dates before the current time therefore
  give a negative resolution. Aligning such a series never runs the loop and leaves no records
  (`Series.ShortSeriesAlignsToNothing`).

## Model

| member | source | states |
|---|---|---|
| Shapes.CheckInputData | pbu/time_series.py:47-73 | A dict holding the date key is column-shaped and a non-empty list whose first element is a dict is row-shaped. The keys are that dict's (that record's) insertion order without the date key: each other key once, and no other key. No data gives no shape and no keys. Every other input raises ValueError. |
| Shapes.Without | pbu/time_series.py:58-70 | The reported keys are never more than the dict's (record's) keys. |
| Shapes.WithoutKeepsOthers | pbu/time_series.py:58-70 | The reported keys are exactly the keys other than the date key, and they are distinct. |
| Shapes.WithoutKeepsOrder | pbu/time_series.py:58-70 | Dropping the date key keeps the other keys in their order. |
| Shapes.RowsToColumns | pbu/time_series.py:414-424 | The translation loops compute the column-shaped translation of the records. |
| Shapes.Column | pbu/time_series.py:420-422 | A column gathers at most one value per record. |
| Shapes.RowAt | pbu/time_series.py:393-398 | The record built at an index has exactly the columns' keys. |
| Shapes.ColumnsToRows | pbu/time_series.py:389-400 | The translation loops compute the row-shaped translation of the columns. |
| Shapes.ColumnOfFullKey | pbu/time_series.py:420-422 | When every record has a key, its column lists the records' values in order. |
| Shapes.ColumnsRoundTrip | pbu/time_series.py:378-424 | Equally long, non-empty columns survive columns → rows → columns. |
| Shapes.ColumnsOfHomogeneous | pbu/time_series.py:414-424 | Records that share one key set become equally long columns holding their values index by index. |
| Shapes.RowsRoundTrip | pbu/time_series.py:378-424 | Records that share one key set (including the date key) survive rows → columns → rows. |
| Shapes.EmptyColumnsDoNotRoundTrip | pbu/time_series.py:389-416 | Empty columns become no records, and translating no records back raises IndexError. |
| Shapes.RowValues | pbu/time_series.py:227-233 | Reading a key from records gives every record's value in order. It fails exactly when there are no records or one lacks the key. |
| Shapes.Values | pbu/time_series.py:214-233 | `get_values` returns a column exactly when the key is present, and raises ValueError otherwise. On records it reads every record. |
| Resolution.DetectResolution | pbu/time_series.py:129-159 | The tally and scan loops compute the specified resolution. |
| Resolution.TallyOfIsTally | pbu/time_series.py:131-147 | The `stats` dict counts every difference exactly, once per distinct difference, in first-seen order. |
| Resolution.ScanFindsFirstMaximum | pbu/time_series.py:150-155 | The strict `>` scan returns the largest count and the earliest entry holding it. |
| Resolution.ScanOfTallyIsFirstMode | pbu/time_series.py:131-158 | Scanning the tally yields a most frequent difference, and the first seen among equals. |
| Resolution.ResolutionIsFirstMode | pbu/time_series.py:122-159 | The resolution occurs at least as often as any difference and more often than every difference seen before it. ValueError exactly when there are no dates. |
| Resolution.RegularSeriesResolution | pbu/time_series.py:129-159 | Three or more dates spaced g apart have resolution g, whatever the current time. |
| Resolution.TwoPointResolution | pbu/time_series.py:129-159 | Two dates give the difference between the first date and the current time. |
| DateRange.CreateDateRange | pbu/time_series.py:426-444 | The cursor loop computes the specified date range, with a five-minute resolution by default. A resolution that is not positive is accepted wherever the loop ends. |
| DateRange.NonPositiveRange | pbu/time_series.py:435-444 | A resolution that is not positive gives no dates when the start is not after the end and the first cursor value already reaches the end. |
| DateRange.TicksShape | pbu/time_series.py:438-442 | The cursor values are evenly spaced. All are before the end date except the last, which reaches it. |
| DateRange.DateRangeShape | pbu/time_series.py:435-444 | The range starts at the start date and steps by the resolution. All entries are before the end date except the last. A start after the end gives just the start. |
| DateRange.SinglePointRange | pbu/time_series.py:435-444 | A range from a date to itself is that date alone. |
| DateRange.TicksRegular | pbu/time_series.py:438-442 | n steps from a cursor give the n evenly spaced dates after it. |
| Alignment.Gaps | pbu/time_series.py:350-356 | KeyError exactly when either record lacks a value key. Otherwise each gap takes the previous value to the next. |
| Alignment.ComputeGaps | pbu/time_series.py:351-356 | The gap loop computes the specified gaps. |
| Alignment.AdvanceRecord | pbu/time_series.py:361-365 | Building one interpolated record computes the specified next record. |
| Alignment.Interpolate | pbu/time_series.py:360-368 | The interpolation loop returns the specified records and the new previous record. |
| Alignment.StepOnce | pbu/time_series.py:329-368 | One pass of the while loop computes the specified step. |
| Alignment.Align | pbu/time_series.py:319-368 | The while loop produces the records the specification gives for the cursor from start − r up to the end date. |
| Alignment.AlignData | pbu/time_series.py:306-376 | Alignment keeps the shape of the data, and every aligned record carries a date. A resolution that is not positive leaves the loop unrun: records become no records, and columns raise the rebuild's ValueError. |
| Alignment.AdvanceAt | pbu/time_series.py:364-365 | One interpolation step moves a value by its gap. |
| Alignment.NthAt | pbu/time_series.py:360-368 | After n interpolation steps a value has moved by n gaps. |
| Alignment.NthDate | pbu/time_series.py:361-363 | After n interpolation steps the date has moved by n resolutions. |
| Alignment.InterpolatedShape | pbu/time_series.py:360-368 | The i-th interpolated record is i + 1 resolutions and i + 1 gaps after the previous record. |
| Alignment.InterpolationBranch | pbu/time_series.py:348-368 | A record ahead of the tick emits floor((t − tick)/r) records after the previous one, the i-th adding i + 1 full gaps. The read index stays and the output so far is kept. KeyError exactly when a value key is missing. |
| Alignment.FirstGapIsZero | pbu/time_series.py:352-368 | With no previous record the gaps are zero, so the interpolated records repeat the next record's values, dated after it. |
| Alignment.RunExtends | pbu/time_series.py:329-368 | The loop never removes output and never moves the read index backwards. |
| Alignment.Step | pbu/time_series.py:329-368 | Every record one loop pass emits carries a date. |
| Alignment.Run | pbu/time_series.py:329-368 | Every record the loop emits carries a date. |
| Alignment.RegularTicks | pbu/time_series.py:312-329 | From one resolution before the first date of a regular series, the loop visits exactly that series' dates. |
| Alignment.RegularRun | pbu/time_series.py:329-368 | On regularly spaced records the loop copies each record in turn from any point on. |
| Alignment.RegularRecordsUnchanged | pbu/time_series.py:311-368 | Records spaced exactly r apart, aligned from their first to their last date, come back unchanged. |
| Alignment.PastLastRecordFails | pbu/time_series.py:329-333 | Aligning one resolution past the last record raises IndexError. |
| Alignment.RegularRowsUnchanged | pbu/time_series.py:293-376 | A regular row-shaped series aligned with its own resolution and default bounds keeps its records. |
| Alignment.RegularColumnsUnchanged | pbu/time_series.py:293-376 | A regular column-shaped series with equally long columns keeps its columns. |
| Alignment.AlignTrace | pbu/time_series.py:293-376 | Records (0, 0) and (120, 10) at resolution 60 become (0, 0), (60, 10), (120, 10). |
| Series.ElementDates | pbu/time_series.py:227-233 | The dates of a list input are every element's date, in order. Reading fails exactly when some element is not a dict or lacks the date key. |
| Series.WithColumn | pbu/time_series.py:182-190 | Setting a column keeps the shape. On columns it sets exactly that column. |
| Series.Create | pbu/time_series.py:21-45 | The constructor raises what the checks raise. Otherwise it builds a fresh series holding the specified shape, data, keys and resolution. |
| Series.ConstructedSeries | pbu/time_series.py:21-73 | A constructed series holds columns exactly for a dict input. Its keys are the other keys of the dict or first record, each once when the input's key orders list its dicts' keys. Its date column is readable and not empty, and its resolution is the one detected on it. |
| Series.TimeSeries.constructor | pbu/time_series.py:33-45 | The fields are stored as given, and the shape agrees with the kind. |
| Series.TimeSeries.SetResolution | pbu/time_series.py:111-120 | The given resolution is stored. Otherwise the detected one is stored, or detection's error is raised with nothing changed. |
| Series.TimeSeries.TranslateToListOfDicts | pbu/time_series.py:378-400 | Records are returned as they are, and columns are translated to records. |
| Series.TimeSeries.TranslateToDictOfLists | pbu/time_series.py:402-424 | Columns are returned as they are, and records are translated to columns. |
| Series.TimeSeries.PutColumn | pbu/time_series.py:182-212 | The column is stored in the current shape, keys and resolution untouched. A failed rebuild leaves the data unchanged. |
| Series.TimeSeries.AddValues | pbu/time_series.py:161-192 | The new data and keys are the specified ones, or the error is raised and nothing changes. |
| Series.TimeSeries.FillValues | pbu/time_series.py:194-212 | The new data is the specified one and keys are unchanged, or the error is raised and nothing changes. |
| Series.TimeSeries.RemoveSeries | pbu/time_series.py:271-291 | The new data and outcome are the specified ones, with keys and resolution unchanged. |
| Series.TimeSeries.AlignToResolution | pbu/time_series.py:293-376 | The data becomes the aligned data, or the error is raised and the data is unchanged. |
| Series.TimeSeries.AddSeries | pbu/time_series.py:237-269 | Both series end in the specified state, with the other series aligned in place. |
| Series.AddSeriesValues | pbu/time_series.py:237-269 | When `add_series` completes, every column of the other series reads in this series as in the other series aligned to this one's dates. Every other column keeps the value this series' own alignment gave it. |
| Series.AddEachValues | pbu/time_series.py:268-269 | The closing loop leaves every column it does not add unchanged. When it completes, every added column reads as in the other series. |
| Series.AddValuesReadsBack | pbu/time_series.py:161-192 | On records that all carry a date, a successful `add_values` reads the new column back and keeps every other column. |
| Series.WithColumnOnDatedRows | pbu/time_series.py:183-190 | When the rebuild through columns succeeds on dated records, it sets the column in every record and changes nothing else. |
| Series.ShortSeriesAlignsToNothing | pbu/time_series.py:293-376 | Two records dated before the current time detect a negative resolution. The loop never runs, and the series is left with no records. |
| Series.TimeSeries.AlignAndAddFrom | pbu/time_series.py:260-269 | From the alignment of this series on, both series end in the specified state. |
| Series.TimeSeries.AddAlignedFrom | pbu/time_series.py:264-269 | From the alignment of the other series on, both series end in the specified state. |
| Series.TimeSeries.AddAll | pbu/time_series.py:268-269 | The closing loop adds the other series' columns one by one, as specified. |
| Series.AnyIn | pbu/time_series.py:254-258 | The duplicate check finds a key exactly when one of the checked keys is already present. |
| Series.DropSpec | pbu/time_series.py:283-290 | Successive deletion only removes columns. It completes exactly when the keys are distinct and all present, and then removes exactly them. |
| Series.RemoveColumns | pbu/time_series.py:277-285 | Naming the date key raises AttributeError before anything is deleted. Otherwise the named columns go, KeyError at a missing or repeated one, and the other columns are untouched. |
| Series.RemoveFromRows | pbu/time_series.py:286-291 | On uniform records, every record loses exactly the named keys. |
| Series.AddColumnToRows | pbu/time_series.py:186-190 | On uniform records, the new column is set in every record and nothing else changes. |
| Series.ReadBack | pbu/time_series.py:183-190 | After a column is set, it reads back as the given values and every other column reads as before. |
| Series.AddValuesSpec | pbu/time_series.py:161-192 | AttributeError exactly for a listed key. ValueError for a length other than the number of dates, and success for a new key of matching length. On success the key is appended, the shape kept, the column reads back and the other columns are unchanged. |
| Series.FillValuesSpec | pbu/time_series.py:194-212 | AttributeError exactly for a listed key, and success for a new key wherever the dates can be counted. On success the column holds the constant once per date, the other columns are unchanged and keys are not extended. |
| Series.AddEachKeys | pbu/time_series.py:268-269 | The closing loop only appends keys, appends all of them when it completes, and keeps the shape. |
| Series.AddAlignedKeys | pbu/time_series.py:264-269 | Past this series' alignment, `add_series` only appends keys and keeps the shape. |
| Series.AddSeriesKeys | pbu/time_series.py:246-269 | A key to add that is already listed raises ValueError and changes nothing. Otherwise keys are only appended, all of the other series' keys when it completes. |
| Series.KeysToAddOnlyChecked | pbu/time_series.py:249-269 | Past the duplicate check the result does not depend on `keys_to_add`. |
| JsonDocuments.AttributeMapping | pbu/json_document.py:55-73 | No mapping exactly when the subclass does not override the hook or its override returns a non-dict. Otherwise the subclass's dict. |
| JsonDocuments.Serialised | pbu/json_document.py:30-37 | Serialising fails only with AttributeError. |
| JsonDocuments.Updated | pbu/json_document.py:87-91 | Applying updates never adds or removes an attribute. |
| JsonDocuments.Document.ToJson | pbu/json_document.py:25-37 | The loop computes the specified JSON dict, and gives `{}` without a mapping. |
| JsonDocuments.Document.ExtractSystemFields | pbu/json_document.py:10-23 | The attributes become the specified ones. Without a mapping they are unchanged. |
| JsonDocuments.Document.ApplyUpdates | pbu/json_document.py:75-91 | ValueError, with nothing changed, unless the update is an instance of this class. Otherwise the attributes become the specified ones. |
| JsonDocuments.SerialisedFails | pbu/json_document.py:33-35 | A missing attribute anywhere in the mapping makes `to_json` raise AttributeError. |
| JsonDocuments.SerialisedOk | pbu/json_document.py:33-35 | `to_json` succeeds exactly when the object has every mapped attribute. |
| JsonDocuments.SerialisedKeys | pbu/json_document.py:30-37 | The JSON dict holds exactly the names that some mapped non-None attribute is written under. |
| JsonDocuments.SerialisedValues | pbu/json_document.py:33-35 | Under each JSON name is the value of the last pair that writes there. |
| JsonDocuments.ExtractedSpec | pbu/json_document.py:21-23 | Exactly the attributes whose JSON name is present are set, each to that JSON value. All others keep their values. |
| JsonDocuments.RoundTrip | pbu/json_document.py:10-37 | Extracting `to_json` of an object restores every mapped non-None attribute when the JSON names are distinct. Unmapped attributes are untouched. |
| JsonDocuments.UpdatedSpec | pbu/json_document.py:87-91 | Exactly the listed attributes that both objects have take the update's value. Every other attribute keeps its value. |
| JsonDocuments.ListToJson | pbu/json_document.py:94-100 | Every item's `to_json`, in order and of the same length. It fails exactly when an item fails. |
| JsonDocuments.ListFromJson | pbu/json_document.py:103-112 | ValueError exactly for a class that is not a JsonDocument subclass. Otherwise `from_json` of every dict, in order. |
| DefaultOptions.Merge | pbu/default_options.py:1-22 | With either dict missing, the result is the defaults. Otherwise the two loops compute the specified merge. |
| DefaultOptions.MergedSpec | pbu/default_options.py:15-20 | Every default key is kept. Without unknown keys the key set is the defaults', with them the union. Override values win, and other keys keep the default. |
| DefaultOptions.MergeIdempotent | pbu/default_options.py:15-20 | Merging a dict over itself gives it back. |
| DefaultOptions.MergeEmpty | pbu/default_options.py:15-20 | An empty override gives the defaults. Empty defaults give nothing without unknown keys, and the override with them. |
| MongoStore.SetUpdateFull | pbu/mongo_store.py:165-176 | `_id` is removed from the caller's dict in place, and that same dict becomes the `$set` part. |
| MongoStore.UnsetUpdate | pbu/mongo_store.py:178-193 | Exactly the given key or keys map to 1 under `$unset`. An argument of another type gives an empty `$unset`. |
| MongoStore.Item | pbu/mongo_store.py:210-211 | Indexing the values succeeds exactly within a list's or string's length. Otherwise TypeError or IndexError. |
| MongoStore.SetUpdate | pbu/mongo_store.py:195-213 | The loop computes the specified `$set` part, or raises its error. |
| MongoStore.AssignedFails | pbu/mongo_store.py:210-211 | An error on a prefix of the keys is the error of the whole call. |
| MongoStore.AssignedOk | pbu/mongo_store.py:207-213 | A key list succeeds exactly when it is empty or the values reach every position. Otherwise TypeError for unindexable values, IndexError for too few. |
| MongoStore.AssignedValues | pbu/mongo_store.py:210-211 | Exactly the listed keys are set, each to the value at its last occurrence's position. |
| MongoStore.SetUpdateByPosition | pbu/mongo_store.py:195-213 | Distinct keys with enough list values pair up by position. |
| MongoStore.SanitisedQuery | pbu/mongo_store.py:86-87 | A string `_id` becomes an ObjectId of that string, and every other entry is kept. |
| MongoStore.UpdateOne | pbu/mongo_store.py:79-90 | The `$set` part never keeps `_id`, and nothing else of it changes. The query's string `_id` becomes an ObjectId. |
| MongoStore.Update | pbu/mongo_store.py:92-101 | `_id` is removed from the `$set` part, and nothing else changes. |
| MongoStore.Versioned | pbu/mongo_store.py:44-46 | The version is overwritten with the store's only when the document has one. All other entries are kept. |
| MongoStore.Create | pbu/mongo_store.py:35-48 | ValueError unless the document is a dict or `to_json` returns one. A caller's dict is versioned in place, and the versioned document is inserted. |
| MongoStore.StoredId | pbu/mongo_store.py:226-229 | The stored id is None or a string: a string id as given, an ObjectId as its hex text. |
| MongoStore.SystemJson | pbu/mongo_store.py:248-253 | `_id` (as a string) and `version` are written exactly when they are not None. |
| MongoStore.MongoDocument.constructor | pbu/mongo_store.py:220-230 | The id is stringified unless it is None or a string, and the version is stored as given. |
| MongoStore.MongoDocument.ExtractSystemFields | pbu/mongo_store.py:232-240 | The id and version are taken from the JSON where present, the id stringified. |
| MongoStore.SystemRoundTrip | pbu/mongo_store.py:232-253 | Extracting `to_json` restores a string id and the version. A None field leaves the target's value. |
| MysqlStore.FormatArity | pbu/mysql_store.py:8-11 | Formatting a template raises IndexError exactly when it has more fields than arguments. |
| MysqlStore.DeleteStatementFormatted | pbu/mysql_store.py:155 | The delete template with table T and column F is `delete from T where F=%s`. |
| MysqlStore.SelectStatementFormatted | pbu/mysql_store.py:9 | The select template with fields and table is `select <fields> from <table>`. |
| MysqlStore.WhereStatementFormatted | pbu/mysql_store.py:10 | The where template adds ` where <condition>` to the select statement. |
| MysqlStore.UpdateStatementFormatted | pbu/mysql_store.py:11 | The update template is `update <table> set <assignments> where <condition>`. |
| MysqlStore.WhereStatementBuilt | pbu/mysql_store.py:10 | Formatting the select template into `"{} where {}"` gives the where template. |
| MysqlStore.GetFieldList | pbu/mysql_store.py:202-215 | AttributeError exactly without an object class. ValueError exactly when `get_fields()` is not a list. Otherwise that list unchanged. |
| MysqlStore.SelectQueryFails | pbu/mysql_store.py:217-226 | Without a usable field list the query raises the field list's error. |
| MysqlStore.SelectQuery | pbu/mysql_store.py:223-224 | The query is `select` with the comma-joined fields, in order, `from` the table. |
| MysqlStore.SelectQueryWhere | pbu/mysql_store.py:226 | With a where clause, the same query followed by ` where ` and the clause. |
| MysqlStore.ParseFormat | pbu/mysql_store.py:253-259 | Length 10 picks the date format and length 19 the datetime format. Every other length raises UnboundLocalError. |
| MysqlStore.ParseToDate | pbu/mysql_store.py:245-263 | UnboundLocalError for any other length. Otherwise the string is parsed with the chosen format and localised. |

## Left out

- Date parsing and time zones are left out: `_parse_dates`'s conversion of timestamps and strings, the string
  branch of `get_resolution`, `datetime.strptime`, the local time zone, `format_to_datetime` and
  `parse_to_timestamp`. Dates are integers that stand for parsed datetimes. `strptime` and localisation are
  parameters of `MysqlStore.ParseToDate`.
- The rebuild at pbu/time_series.py:108 is not modelled. It makes row-shaped input with unparsed dates fail to
  construct. Such input does not arise here because dates are already datetimes.
- A `date_time_key` of None is not modelled: the date key is always a string.
- Series.TimeSeries.AlignToResolution: requires that the loop ends. The resolution must be positive, or the cursor
  must start at or after the end date, in which case the loop never runs. A resolution of zero with the cursor
  before the end is excluded: the source ends there with ZeroDivisionError (pbu/time_series.py:357), KeyError or
  IndexError (pbu/time_series.py:333). A negative resolution with the cursor before the end is excluded too: it ends with IndexError or loops
  forever.
- DateRange.CreateDateRange: excludes the same cases: a resolution that is not positive with the first cursor value
  before the end date, where the source loops forever.
- Series.TimeSeries.AddSeries: requires a series other than this one, because aliasing of the two series is not
  modelled. It also requires that aligning this series ends, on the terms of `AlignToResolution` above. The other
  series' alignment then ends too, because its bounds are this series' aligned first and last date. The type check at pbu/time_series.py:247-248 is implied by Dafny's types.
- JsonDocuments.Document.ApplyUpdates: the warning for a missing attribute is not modelled, because it is logging only.
  `hasattr` sees only instance attributes, not methods or class attributes.
- JsonDocuments.RoundTrip: assumes the mapping names each attribute once, as a dict does.
- `from_json` is abstract in the source. It is a function parameter of `JsonDocuments.ListFromJson`.
- The JSON dicts `to_json` builds are maps, so their key order is not modelled.
- `str()` of a list shows its strings quoted but not escaped.
- ObjectId validation (24 hexadecimal characters) belongs to the bson library and is not modelled.
- All database plumbing is left out: connections, cursors, `query`, `query_one`, `get`, `get_all`, `delete`,
  `delete_many`, `update_full`, `run_invoke`, `run_query`, `check_exists`, `close` and `handle_exception`.
  `create` returns the document it would insert, in place of the inserted id.
- `list_to_json` of the two stores and `id_query` are left out. They repeat `JsonDocuments.ListToJson` and build a
  one-entry dict.
- MysqlStore.Format: only plain text and `{}` fields are modelled. Numbered or named fields, format specs and
  `{{`/`}}` escapes do not occur in the modelled templates.
- DefaultOptions.Merge: returning the very same `default` object is modelled as returning an equal value. The two
  input dicts are values, so the merge cannot change them.
