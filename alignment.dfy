/**
 * The grid alignment of `align_to_resolution` (pbu/time_series.py:293-376). A cursor walks the ticks of the grid
 * (the same cursor as `create_date_range`) while a read index walks the records; each tick either takes the record
 * under the read index (it lies on the tick or within half a resolution of it), skips it (it lies behind the tick) or
 * emits interpolated records up to it (it lies ahead of the tick).
 */
module Alignment {
  import opened Results
  import opened Shapes
  import opened DateRange

  /** The loop's variables besides the cursor: the read index, `prev_value` and the `result` list. */
  datatype Progress = Progress(index: nat, prev: Option<Record>, out: seq<Record>)

  function Abs(x: int): nat {
    if x < 0 then -x else x
  }

  /** The tick takes the record dated `t`: equal, or closer than the tolerance of half a resolution. */
  predicate Snaps(tick: int, t: int, r: int) {
    tick == t || 2 * Abs(tick - t) < r
  }

  predicate HasKeys(rec: Record, keys: seq<string>) {
    forall k :: k in keys ==> k in rec
  }

  /** The per-key difference between the next record and the previous one; KeyError when either lacks a key. */
  function Gaps(next: Record, prev: Record, keys: seq<string>): (r: Result<map<string, int>>)
    ensures r.Err? <==> !(HasKeys(next, keys) && HasKeys(prev, keys))
    ensures r.Ok? ==> forall k :: k in keys ==> k in r.value && prev[k] + r.value[k] == next[k]
  {
    if HasKeys(next, keys) && HasKeys(prev, keys) then Ok(map k | k in keys :: next[k] - prev[k]) else Err(KeyError)
  }

  /** The previous record holds what building the next interpolated record reads. */
  predicate Ready(p: Record, gaps: map<string, int>, dateKey: string, keys: seq<string>) {
    dateKey in p && HasKeys(p, keys) && forall k :: k in keys ==> k in gaps
  }

  /** The interpolated record built from the previous one: one resolution later, every key moved by its gap. */
  function Advance(p: Record, gaps: map<string, int>, dateKey: string, keys: seq<string>, r: int): (q: Record)
    requires Ready(p, gaps, dateKey, keys)
    ensures Ready(q, gaps, dateKey, keys)
  {
    map[dateKey := p[dateKey] + r] + map k | k in keys :: p[k] + gaps[k]
  }

  /** The record after `n` interpolation steps from `p`. */
  function Nth(p: Record, gaps: map<string, int>, dateKey: string, keys: seq<string>, r: int, n: nat): (q: Record)
    requires Ready(p, gaps, dateKey, keys)
    ensures Ready(q, gaps, dateKey, keys)
  {
    if n == 0 then p else Advance(Nth(p, gaps, dateKey, keys, r, n - 1), gaps, dateKey, keys, r)
  }

  /** The `count` records the interpolation loop appends. */
  function Interpolated(p: Record, gaps: map<string, int>, dateKey: string, keys: seq<string>, r: int, count: nat)
    : (items: seq<Record>)
    requires Ready(p, gaps, dateKey, keys)
    ensures |items| == count && forall i :: 0 <= i < count ==> dateKey in items[i]
  {
    seq(count, i requires 0 <= i < count => Nth(p, gaps, dateKey, keys, r, i + 1))
  }

  /**
   * Every record the loop holds has the date key: `prev_value` and each record of `result` is a record whose date
   * was read, or an interpolated one.
   */
  predicate Dated(s: Progress, dateKey: string) {
    && (s.prev.Some? ==> dateKey in s.prev.value)
    && forall i :: 0 <= i < |s.out| ==> dateKey in s.out[i]
  }

  /** One pass of the loop body for the tick `tick`. The read index is not checked against the records' count. */
  function Step(orig: seq<Record>, dateKey: string, keys: seq<string>, r: int, tick: int, s: Progress)
    : (res: Result<Progress>)
    requires r > 0 && Dated(s, dateKey)
    ensures res.Ok? ==> Dated(res.value, dateKey)
  {
    if s.index >= |orig| then Err(IndexError)
    else
      var o := orig[s.index];
      if dateKey !in o then Err(KeyError)
      else if Snaps(tick, o[dateKey], r) then Ok(Progress(s.index + 1, Some(o), s.out + [o]))
      else if tick > o[dateKey] then Ok(Progress(s.index + 1, Some(o), s.out))
      else
        var p := if s.prev.Some? then s.prev.value else o;
        var gaps :- Gaps(o, p, keys);
        var count := (o[dateKey] - tick) / r;
        Ok(Progress(s.index, Some(Nth(p, gaps, dateKey, keys, r, count)),
                    s.out + Interpolated(p, gaps, dateKey, keys, r, count)))
  }

  /** The loop over the ticks `ticks`, stopping at the first exception. */
  function Run(orig: seq<Record>, dateKey: string, keys: seq<string>, r: int, ticks: seq<int>, s: Progress)
    : (res: Result<Progress>)
    requires (r > 0 || ticks == []) && Dated(s, dateKey)
    ensures res.Ok? ==> Dated(res.value, dateKey)
    decreases |ticks|
  {
    if ticks == [] then Ok(s)
    else
      var next :- Step(orig, dateKey, keys, r, ticks[0], s);
      Run(orig, dateKey, keys, r, ticks[1..], next)
  }

  /** The records the loop produces when the cursor starts one resolution before `first` and stops at `last`. */
  function AlignRecords(orig: seq<Record>, dateKey: string, keys: seq<string>, r: int, first: int, last: int)
    : Result<seq<Record>>
    requires Ends(first - r, last, r)
  {
    var s :- Run(orig, dateKey, keys, r, Ticks(first - r, last, r), Progress(0, None, []));
    Ok(s.out)
  }

  /** `TimeSeries(result, key).translate_to_dict_of_lists()`: the aligned records back into columns. */
  function Regroup(rows: seq<Record>, dateKey: string): Result<map<string, seq<int>>> {
    if rows == [] then Err(ValueError)
    else if RowValues(rows, dateKey).Err? then Err(RowValues(rows, dateKey).error)
    else ColumnsOf(rows)
  }

  /** The cursor's first tick and end date: the given start and end, or the first and last date. */
  function Bounds(dates: seq<int>, start: Option<int>, end: Option<int>): (int, int)
    requires dates != []
  {
    (if start.Some? then start.value else dates[0], if end.Some? then end.value else dates[|dates| - 1])
  }

  /**
   * The alignment loop of a series ends: where the series has dates, the resolution is positive or the cursor
   * starts at or after the end date.
   */
  predicate CursorEnds(data: Data, dateKey: string, r: int, start: Option<int>, end: Option<int>) {
    Values(data, dateKey).Ok? && Values(data, dateKey).value != [] ==>
      var (first, last) := Bounds(Values(data, dateKey).value, start, end);
      Ends(first - r, last, r)
  }

  /**
   * `align_to_resolution` with a known resolution: the bounds default to the first and last date, column-shaped
   * data goes through records and back. Every aligned record carries a date. A resolution that is not positive
   * leaves the loop unrun: records become no records, and columns raise ValueError when rebuilt from none.
   */
  function AlignData(data: Data, dateKey: string, keys: seq<string>, r: int, start: Option<int>, end: Option<int>)
    : (res: Result<Data>)
    requires CursorEnds(data, dateKey, r, start, end)
    ensures res.Ok? ==> res.value.Columns? == data.Columns?
    ensures res.Ok? && res.value.Rows? ==> forall i :: 0 <= i < |res.value.rows| ==> dateKey in res.value.rows[i]
    ensures r <= 0 && res.Ok? ==> res.value == Rows([])
    ensures r <= 0 && data.Columns? ==> res.Err?
  {
    var dates :- Values(data, dateKey);
    if dates == [] then Err(IndexError)
    else
      var (first, last) := Bounds(dates, start, end);
      var orig :- if data.Rows? then Ok(data.rows) else RowsOf(data.cols, dateKey);
      var out :- AlignRecords(orig, dateKey, keys, r, first, last);
      if data.Rows? then Ok(Rows(out))
      else
        var cols :- Regroup(out, dateKey);
        Ok(Columns(cols))
  }

  /* ---------------------------------------------------------------- the loops */

  /** The gap loop (pbu/time_series.py:351-356). */
  method ComputeGaps(next: Record, prev: Record, keys: seq<string>) returns (res: Result<map<string, int>>)
    ensures res == Gaps(next, prev, keys)
  {
    var gaps: map<string, int> := map[];
    for i := 0 to |keys|
      invariant forall k :: k in keys[..i] ==> k in next && k in prev
      invariant gaps == map k | k in keys[..i] :: next[k] - prev[k]
    {
      var key := keys[i];
      if key !in next || key !in prev {
        return Err(KeyError);
      }
      gaps := gaps[key := next[key] - prev[key]];
      assert keys[..i + 1] == keys[..i] + [key];
    }
    assert keys[..|keys|] == keys;
    return Ok(gaps);
  }

  /** The construction of one interpolated record (pbu/time_series.py:361-365). */
  method AdvanceRecord(p: Record, gaps: map<string, int>, dateKey: string, keys: seq<string>, r: int)
    returns (q: Record)
    requires Ready(p, gaps, dateKey, keys)
    ensures q == Advance(p, gaps, dateKey, keys, r)
  {
    q := map[dateKey := p[dateKey] + r];
    for i := 0 to |keys|
      invariant q == map[dateKey := p[dateKey] + r] + map k | k in keys[..i] :: p[k] + gaps[k]
    {
      var key := keys[i];
      q := q[key := p[key] + gaps[key]];
      assert keys[..i + 1] == keys[..i] + [key];
    }
    assert keys[..|keys|] == keys;
  }

  /** The interpolation loop (pbu/time_series.py:360-368): `count` records, each built from the one before. */
  method Interpolate(p0: Record, gaps: map<string, int>, dateKey: string, keys: seq<string>, r: int, count: nat)
    returns (last: Record, items: seq<Record>)
    requires Ready(p0, gaps, dateKey, keys)
    ensures last == Nth(p0, gaps, dateKey, keys, r, count)
    ensures items == Interpolated(p0, gaps, dateKey, keys, r, count)
  {
    last, items := p0, [];
    for j := 0 to count
      invariant Ready(last, gaps, dateKey, keys)
      invariant last == Nth(p0, gaps, dateKey, keys, r, j)
      invariant items == Interpolated(p0, gaps, dateKey, keys, r, j)
    {
      var item := AdvanceRecord(last, gaps, dateKey, keys, r);
      last := item;
      items := items + [item];
    }
  }

  /** The body of the while loop for the tick `tick` (pbu/time_series.py:333-368). */
  method StepOnce(orig: seq<Record>, dateKey: string, keys: seq<string>, r: int, tick: int, s: Progress)
    returns (res: Result<Progress>)
    requires r > 0 && Dated(s, dateKey)
    ensures res == Step(orig, dateKey, keys, r, tick, s)
  {
    if s.index >= |orig| {
      return Err(IndexError);
    }
    var o := orig[s.index];
    if dateKey !in o {
      return Err(KeyError);
    }
    var t := o[dateKey];
    if tick == t || 2 * Abs(tick - t) < r {
      return Ok(Progress(s.index + 1, Some(o), s.out + [o]));
    } else if tick > t {
      return Ok(Progress(s.index + 1, Some(o), s.out));
    }
    var prev := s.prev;
    if prev.None? {
      prev := Some(o);
    }
    var gaps := ComputeGaps(o, prev.value, keys);
    if gaps.Err? {
      return Err(gaps.error);
    }
    var last, items := Interpolate(prev.value, gaps.value, dateKey, keys, r, (t - tick) / r);
    return Ok(Progress(s.index, Some(last), s.out + items));
  }

  /** The while loop of `align_to_resolution` (pbu/time_series.py:324-368). */
  method Align(orig: seq<Record>, dateKey: string, keys: seq<string>, r: int, first: int, last: int)
    returns (res: Result<seq<Record>>)
    requires Ends(first - r, last, r)
    ensures res == AlignRecords(orig, dateKey, keys, r, first, last)
  {
    var current := first - r;
    var s := Progress(0, None, []);
    while current < last
      invariant Ends(current, last, r) && Dated(s, dateKey)
      invariant Run(orig, dateKey, keys, r, Ticks(current, last, r), s)
             == Run(orig, dateKey, keys, r, Ticks(first - r, last, r), Progress(0, None, []))
      decreases last - current
    {
      current := current + r;
      var next := StepOnce(orig, dateKey, keys, r, current, s);
      if next.Err? {
        return Err(next.error);
      }
      s := next.value;
    }
    return Ok(s.out);
  }

  /* ---------------------------------------------------------------- properties */

  /** One interpolation step moves a value key by its gap. */
  lemma AdvanceAt(p: Record, gaps: map<string, int>, dateKey: string, keys: seq<string>, r: int, k: string)
    requires Ready(p, gaps, dateKey, keys) && k in keys
    ensures Advance(p, gaps, dateKey, keys, r)[k] == p[k] + gaps[k]
  {
  }

  /** After `n` interpolation steps a value key has moved by `n` gaps. */
  lemma {:induction false} NthAt(p: Record, gaps: map<string, int>, dateKey: string, keys: seq<string>, r: int, n: nat, k: string)
    requires Ready(p, gaps, dateKey, keys) && k in keys
    ensures Nth(p, gaps, dateKey, keys, r, n)[k] == p[k] + n * gaps[k]
    decreases n
  {
    if n > 0 {
      NthAt(p, gaps, dateKey, keys, r, n - 1, k);
      var q := Nth(p, gaps, dateKey, keys, r, n - 1);
      AdvanceAt(q, gaps, dateKey, keys, r, k);
      assert (n - 1) * gaps[k] + gaps[k] == n * gaps[k];
    }
  }

  /** After `n` interpolation steps the date has moved by `n` resolutions, when the date key is not a value key. */
  lemma {:induction false} NthDate(p: Record, gaps: map<string, int>, dateKey: string, keys: seq<string>, r: int, n: nat)
    requires Ready(p, gaps, dateKey, keys) && dateKey !in keys
    ensures Nth(p, gaps, dateKey, keys, r, n)[dateKey] == p[dateKey] + n * r
    decreases n
  {
    if n > 0 {
      NthDate(p, gaps, dateKey, keys, r, n - 1);
      assert (n - 1) * r + r == n * r;
    }
  }

  /** The interpolated records, in closed form: the i-th is i + 1 resolutions and i + 1 gaps after `p`. */
  lemma InterpolatedShape(p: Record, gaps: map<string, int>, dateKey: string, keys: seq<string>, r: int, count: nat)
    requires Ready(p, gaps, dateKey, keys) && dateKey !in keys
    ensures var items := Interpolated(p, gaps, dateKey, keys, r, count);
      && |items| == count
      && (forall i :: 0 <= i < count ==> items[i][dateKey] == p[dateKey] + (i + 1) * r)
      && (forall i :: 0 <= i < count ==> forall k :: k in keys ==> items[i][k] == p[k] + (i + 1) * gaps[k])
  {
    var items := Interpolated(p, gaps, dateKey, keys, r, count);
    forall i | 0 <= i < count
      ensures items[i][dateKey] == p[dateKey] + (i + 1) * r
      ensures forall k :: k in keys ==> items[i][k] == p[k] + (i + 1) * gaps[k]
    {
      NthDate(p, gaps, dateKey, keys, r, i + 1);
      forall k | k in keys
        ensures items[i][k] == p[k] + (i + 1) * gaps[k]
      {
        NthAt(p, gaps, dateKey, keys, r, i + 1, k);
      }
    }
  }

  /**
   * When the record under the read index lies ahead of the tick and out of tolerance, the step emits
   * floor((t - tick) / r) records after `prev_value` (or after that record itself when there is no `prev_value`):
   * the i-th one dated i + 1 resolutions after it and holding its values plus i + 1 full gaps; the read index stays.
   * It raises KeyError exactly when one of the two records lacks a value key.
   */
  lemma InterpolationBranch(orig: seq<Record>, dateKey: string, keys: seq<string>, r: int, tick: int, s: Progress)
    requires r > 0 && Dated(s, dateKey) && s.index < |orig| && dateKey in orig[s.index] && dateKey !in keys
    requires tick < orig[s.index][dateKey] && !Snaps(tick, orig[s.index][dateKey], r)
    ensures var o := orig[s.index];
      var p := if s.prev.Some? then s.prev.value else o;
      var res := Step(orig, dateKey, keys, r, tick, s);
      && (res.Err? <==> !(HasKeys(o, keys) && HasKeys(p, keys)))
      && (res.Err? ==> res.error == KeyError)
      && (res.Ok? ==>
        var count := (o[dateKey] - tick) / r;
        var items := res.value.out[|s.out|..];
        && res.value.index == s.index
        && |res.value.out| == |s.out| + count
        && res.value.out[..|s.out|] == s.out
        && (forall i :: 0 <= i < count ==> items[i][dateKey] == p[dateKey] + (i + 1) * r)
        && (forall i :: 0 <= i < count ==> forall k :: k in keys ==> items[i][k] == p[k] + (i + 1) * (o[k] - p[k])))
  {
    var o := orig[s.index];
    var p := if s.prev.Some? then s.prev.value else o;
    var res := Step(orig, dateKey, keys, r, tick, s);
    if HasKeys(o, keys) && HasKeys(p, keys) {
      var gaps := Gaps(o, p, keys).value;
      var count := (o[dateKey] - tick) / r;
      var items := Interpolated(p, gaps, dateKey, keys, r, count);
      assert res == Ok(Progress(s.index, Some(Nth(p, gaps, dateKey, keys, r, count)), s.out + items));
      assert res.value.out[|s.out|..] == items;
      InterpolatedShape(p, gaps, dateKey, keys, r, count);
    }
  }

  /**
   * Before any record is consumed there is no `prev_value`, so interpolation starts from the next record itself:
   * the gaps are zero, every interpolated record repeats the next record's values, and each is dated one more
   * resolution after that record (a start date before the first record yields records dated after it).
   */
  lemma FirstGapIsZero(orig: seq<Record>, dateKey: string, keys: seq<string>, r: int, tick: int)
    requires r > 0 && |orig| > 0 && dateKey in orig[0] && dateKey !in keys && HasKeys(orig[0], keys)
    requires tick < orig[0][dateKey] && !Snaps(tick, orig[0][dateKey], r)
    ensures var res := Step(orig, dateKey, keys, r, tick, Progress(0, None, []));
      && res.Ok?
      && |res.value.out| == (orig[0][dateKey] - tick) / r
      && (forall i, k :: 0 <= i < |res.value.out| && k in keys ==> res.value.out[i][k] == orig[0][k])
      && (forall i :: 0 <= i < |res.value.out| ==> res.value.out[i][dateKey] == orig[0][dateKey] + (i + 1) * r)
  {
    var s := Progress(0, None, []);
    InterpolationBranch(orig, dateKey, keys, r, tick, s);
    var res := Step(orig, dateKey, keys, r, tick, s);
    assert res.value.out[|s.out|..] == res.value.out;
  }

  /** A run never takes back output or steps the read index backwards. */
  lemma {:induction false} RunExtends(orig: seq<Record>, dateKey: string, keys: seq<string>, r: int, ticks: seq<int>, s: Progress)
    requires r > 0 && Dated(s, dateKey)
    ensures var res := Run(orig, dateKey, keys, r, ticks, s);
      res.Ok? ==> s.index <= res.value.index && s.out <= res.value.out
    decreases |ticks|
  {
    if ticks != [] {
      var next := Step(orig, dateKey, keys, r, ticks[0], s);
      if next.Ok? {
        RunExtends(orig, dateKey, keys, r, ticks[1..], next.value);
      }
    }
  }

  /** Records dated `t0`, `t0 + r`, `t0 + 2r`, ... */
  predicate Regular(orig: seq<Record>, dateKey: string, t0: int, r: int) {
    forall i :: 0 <= i < |orig| ==> dateKey in orig[i] && orig[i][dateKey] == t0 + i * r
  }

  /** The state after the loop has taken the first `j` records on their own ticks. */
  function Taken(orig: seq<Record>, j: nat): Progress
    requires j <= |orig|
  {
    Progress(j, if j == 0 then None else Some(orig[j - 1]), orig[..j])
  }

  /** On a regular series the ticks of the remaining records each take their record unchanged. */
  lemma {:induction false} RegularRun(orig: seq<Record>, dateKey: string, keys: seq<string>, r: int, t0: int, j: nat, extra: seq<int>)
    requires r > 0 && Regular(orig, dateKey, t0, r) && j <= |orig|
    ensures Dated(Taken(orig, j), dateKey) && Dated(Taken(orig, |orig|), dateKey)
    ensures Run(orig, dateKey, keys, r, seq(|orig| - j, i requires 0 <= i < |orig| - j => t0 + (j + i) * r) + extra, Taken(orig, j))
         == Run(orig, dateKey, keys, r, extra, Taken(orig, |orig|))
    decreases |orig| - j
  {
    var n := |orig|;
    var ticks := seq(n - j, i requires 0 <= i < n - j => t0 + (j + i) * r);
    if j == n {
      assert ticks + extra == extra;
    } else {
      RegularRun(orig, dateKey, keys, r, t0, j + 1, extra);
      var rest := seq(n - (j + 1), i requires 0 <= i < n - (j + 1) => t0 + (j + 1 + i) * r);
      assert (ticks + extra)[0] == t0 + j * r == orig[j][dateKey];
      assert (ticks + extra)[1..] == rest + extra;
      assert orig[..j + 1] == orig[..j] + [orig[j]];
      assert Step(orig, dateKey, keys, r, t0 + j * r, Taken(orig, j)) == Ok(Taken(orig, j + 1));
    }
  }

  /** The ticks of the default bounds of a regular series are the series' own dates. */
  lemma RegularTicks(t0: int, n: nat, r: int)
    requires r > 0
    ensures Ticks(t0 - r, t0 + (n - 1) * r, r) == seq(n, i requires 0 <= i < n => t0 + (0 + i) * r)
  {
    TicksRegular(t0 - r, n, r);
    assert t0 - r + n * r == t0 + (n - 1) * r;
  }

  /** Records already spaced exactly `r` apart, aligned between their first and last date, come back unchanged. */
  lemma RegularRecordsUnchanged(orig: seq<Record>, dateKey: string, keys: seq<string>, r: int, t0: int)
    requires r > 0 && |orig| > 0 && Regular(orig, dateKey, t0, r)
    ensures AlignRecords(orig, dateKey, keys, r, t0, t0 + (|orig| - 1) * r) == Ok(orig)
  {
    var n := |orig|;
    RegularTicks(t0, n, r);
    var ticks := seq(n, i requires 0 <= i < n => t0 + (0 + i) * r);
    assert ticks + [] == ticks;
    RegularRun(orig, dateKey, keys, r, t0, 0, []);
    assert orig[..n] == orig;
  }

  /**
   * The read index is never clamped: aligning a regular series one resolution past its last date raises
   * IndexError instead of ending the series.
   */
  lemma PastLastRecordFails(orig: seq<Record>, dateKey: string, keys: seq<string>, r: int, t0: int)
    requires r > 0 && |orig| > 0 && Regular(orig, dateKey, t0, r)
    ensures AlignRecords(orig, dateKey, keys, r, t0, t0 + |orig| * r) == Err(IndexError)
  {
    var n := |orig|;
    TicksRegular(t0 - r, n + 1, r);
    assert t0 - r + (n + 1) * r == t0 + n * r;
    var ticks := seq(n, i requires 0 <= i < n => t0 + (0 + i) * r);
    assert Ticks(t0 - r, t0 + n * r, r) == ticks + [t0 + n * r];
    RegularRun(orig, dateKey, keys, r, t0, 0, [t0 + n * r]);
  }

  /**
   * A series spaced exactly `r` apart, aligned with `r` and the default bounds, keeps its records; in the column
   * shape it keeps its columns when they are all as long as the date column.
   */
  lemma RegularRowsUnchanged(orig: seq<Record>, dateKey: string, keys: seq<string>, r: int, t0: int)
    requires r > 0 && |orig| > 0 && Regular(orig, dateKey, t0, r)
    ensures AlignData(Rows(orig), dateKey, keys, r, None, None) == Ok(Rows(orig))
  {
    var dates := RowValues(orig, dateKey).value;
    assert dates[0] == t0 && dates[|dates| - 1] == t0 + (|orig| - 1) * r;
    RegularRecordsUnchanged(orig, dateKey, keys, r, t0);
  }

  lemma RegularColumnsUnchanged(cols: map<string, seq<int>>, dateKey: string, keys: seq<string>, r: int, n: nat)
    requires r > 0 && n > 0 && dateKey in cols && Rectangular(cols, n)
    requires forall i :: 0 <= i < n ==> cols[dateKey][i] == cols[dateKey][0] + i * r
    ensures AlignData(Columns(cols), dateKey, keys, r, None, None) == Ok(Columns(cols))
  {
    var t0 := cols[dateKey][0];
    ColumnsRoundTrip(cols, dateKey, n);
    var orig := RowsOf(cols, dateKey).value;
    assert forall i :: 0 <= i < n ==> orig[i] == RowAt(cols, i);
    assert Regular(orig, dateKey, t0, r);
    RegularRecordsUnchanged(orig, dateKey, keys, r, t0);
    assert RowValues(orig, dateKey).Ok?;
  }

  /** The alignment of two records a gap of two resolutions apart: the record between repeats the later values. */
  lemma AlignTrace()
    ensures AlignRecords([map["t" := 0, "v" := 0], map["t" := 120, "v" := 10]], "t", ["v"], 60, 0, 120)
         == Ok([map["t" := 0, "v" := 0], map["t" := 60, "v" := 10], map["t" := 120, "v" := 10]])
  {
    var orig := [map["t" := 0, "v" := 0], map["t" := 120, "v" := 10]];
    assert "t" != "v" by { assert "t"[0] != "v"[0]; }
    TicksRegular(-60, 3, 60);
    assert Ticks(-60, 120, 60) == [0, 60, 120];
    var s1 := Progress(1, Some(orig[0]), [orig[0]]);
    assert "t" in orig[0] && orig[0]["t"] == 0;
    assert Snaps(0, orig[0]["t"], 60);
    assert [] + [orig[0]] == [orig[0]];
    assert Step(orig, "t", ["v"], 60, 0, Progress(0, None, [])) == Ok(s1);
    assert HasKeys(orig[1], ["v"]) && HasKeys(orig[0], ["v"]);
    var gaps := Gaps(orig[1], orig[0], ["v"]).value;
    assert gaps["v"] == 10;
    var mid := map["t" := 60, "v" := 10];
    var q := Nth(orig[0], gaps, "t", ["v"], 60, 1);
    assert Nth(orig[0], gaps, "t", ["v"], 60, 0) == orig[0];
    assert q == Advance(orig[0], gaps, "t", ["v"], 60);
    assert q.Keys == mid.Keys && q["t"] == 60 && q["v"] == 10;
    assert q == mid;
    assert Interpolated(orig[0], gaps, "t", ["v"], 60, 1) == [mid];
    var s2 := Progress(1, Some(mid), [orig[0], mid]);
    assert !Snaps(60, orig[1]["t"], 60) && (orig[1]["t"] - 60) / 60 == 1;
    assert [orig[0]] + [mid] == [orig[0], mid];
    var st := Step(orig, "t", ["v"], 60, 60, s1);
    assert st.Ok?;
    assert st.value.index == 1;
    assert st.value.prev == Some(mid);
    assert st.value.out == [orig[0], mid];
    assert Step(orig, "t", ["v"], 60, 60, s1) == Ok(s2);
    var s3 := Progress(2, Some(orig[1]), [orig[0], mid, orig[1]]);
    assert Snaps(120, orig[1]["t"], 60);
    assert [orig[0], mid] + [orig[1]] == [orig[0], mid, orig[1]];
    assert Step(orig, "t", ["v"], 60, 120, s2) == Ok(s3);
    assert [0, 60, 120][1..] == [60, 120] && [60, 120][1..] == [120] && [120][1..] == [];
  }
}
