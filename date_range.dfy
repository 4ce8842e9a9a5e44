/**
 * The cursor loop shared by `create_date_range` (pbu/time_series.py:426-444) and `align_to_resolution`: start one
 * step before the first date and add the resolution while the cursor is still before the end date. A resolution
 * that is not positive is only meaningful when the cursor starts at or after the end date: the loop then never
 * runs, and otherwise it never ends.
 */
module DateRange {
  import opened Results

  /** `create_date_range`'s default resolution: five minutes, in seconds. */
  const DefaultResolution: int := 300

  /** The loop `while current < until: current += r` ends: the step is positive or the loop never runs. */
  predicate Ends(current: int, until: int, r: int) {
    r > 0 || current >= until
  }

  /** The cursor values `while current < until: current += r` passes through, starting from `current`. */
  function Ticks(current: int, until: int, r: int): seq<int>
    requires Ends(current, until, r)
    decreases until - current
  {
    if current < until then [current + r] + Ticks(current + r, until, r) else []
  }

  /** `create_date_range(first, until, r)`. */
  function DateRange(first: int, until: int, r: int): seq<int>
    requires first > until || Ends(first - r, until, r)
  {
    if first > until then [first] else Ticks(first - r, until, r)
  }

  /**
   * The loop of `create_date_range`; `until` stands for the default evaluated when the module is imported, and a
   * missing resolution is the five-minute default.
   */
  method CreateDateRange(first: int, until: int, resolution: Option<int>) returns (result: seq<int>)
    requires var r := if resolution.Some? then resolution.value else DefaultResolution;
      first > until || Ends(first - r, until, r)
    ensures result == DateRange(first, until, if resolution.Some? then resolution.value else DefaultResolution)
  {
    if first > until {
      return [first];
    }
    var r := if resolution.Some? then resolution.value else DefaultResolution;
    result := [];
    var current := first - r;
    while current < until
      invariant Ends(current, until, r)
      invariant result + Ticks(current, until, r) == Ticks(first - r, until, r)
      decreases until - current
    {
      current := current + r;
      result := result + [current];
    }
  }

  /** From a cursor before `until`, the ticks are evenly spaced, all before `until` except the last, which reaches it. */
  lemma {:induction false} TicksShape(current: int, until: int, r: int)
    requires r > 0 && current < until
    ensures var ts := Ticks(current, until, r);
      && |ts| >= 1
      && (forall i :: 0 <= i < |ts| ==> ts[i] == current + (i + 1) * r)
      && (forall i :: 0 <= i < |ts| - 1 ==> ts[i] < until)
      && ts[|ts| - 1] >= until
    decreases until - current
  {
    var ts := Ticks(current, until, r);
    if current + r < until {
      TicksShape(current + r, until, r);
      var rest := Ticks(current + r, until, r);
      assert ts == [current + r] + rest;
      forall i | 0 < i < |ts|
        ensures ts[i] == current + (i + 1) * r
      {
        assert ts[i] == rest[i - 1] == current + r + i * r;
      }
    } else {
      assert ts == [current + r];
    }
  }

  /**
   * The date range starts at `first`, its consecutive entries differ by exactly `r`, every entry but the last is
   * before `until` and the last is not; when `first` is after `until` it is `[first]` alone.
   */
  lemma DateRangeShape(first: int, until: int, r: int)
    requires r > 0
    ensures first > until ==> DateRange(first, until, r) == [first]
    ensures var d := DateRange(first, until, r);
      && |d| >= 1 && d[0] == first
      && (forall i :: 0 <= i < |d| - 1 ==> d[i + 1] - d[i] == r)
      && (first <= until ==> (forall i :: 0 <= i < |d| - 1 ==> d[i] < until) && d[|d| - 1] >= until)
  {
    if first <= until {
      TicksShape(first - r, until, r);
      var d := DateRange(first, until, r);
      forall i | 0 <= i < |d| - 1
        ensures d[i + 1] - d[i] == r
      {
        assert d[i + 1] == first - r + (i + 2) * r;
        assert d[i] == first - r + (i + 1) * r;
      }
    }
  }

  /**
   * A resolution that is not positive gives no dates at all once the start is not after the end: the first cursor
   * value is already at or past the end (a zero resolution with `first == until`, or a step back past it).
   */
  lemma NonPositiveRange(first: int, until: int, r: int)
    requires r <= 0 && first <= until && first - r >= until
    ensures DateRange(first, until, r) == []
  {
  }

  /** A single date gives a single-entry range. */
  lemma SinglePointRange(first: int, r: int)
    requires r > 0
    ensures DateRange(first, first, r) == [first]
  {
    DateRangeShape(first, first, r);
  }

  /** `n` steps of `r` from `current` give exactly the `n` evenly spaced ticks after it. */
  lemma {:induction false} TicksRegular(current: int, n: nat, r: int)
    requires r > 0
    ensures Ticks(current, current + n * r, r) == seq(n, i requires 0 <= i < n => current + (i + 1) * r)
    decreases n
  {
    if n > 0 {
      TicksRegular(current + r, n - 1, r);
      assert current + n * r == (current + r) + (n - 1) * r;
      var rest := Ticks(current + r, current + n * r, r);
      assert rest == seq(n - 1, i requires 0 <= i < n - 1 => current + r + (i + 1) * r);
      var ts := Ticks(current, current + n * r, r);
      assert ts == [current + r] + rest;
      forall i | 0 < i < n
        ensures ts[i] == current + (i + 1) * r
      {
        assert ts[i] == rest[i - 1];
      }
    }
  }
}
