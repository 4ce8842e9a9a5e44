/**
 * Resolution detection of a TimeSeries (`get_resolution`, pbu/time_series.py:122-159): the most frequent
 * difference between consecutive timestamps, the first one measured against the current time `now`, ties going
 * to the difference seen first.
 */
module Resolution {
  import opened Results

  /** The differences get_resolution tallies: each timestamp minus the one before it, the first minus `now`. */
  function Diffs(dates: seq<int>, now: int): (ds: seq<int>)
  {
    seq(|dates|, i requires 0 <= i < |dates| => dates[i] - (if i == 0 then now else dates[i - 1]))
  }

  /** How often `d` occurs in `ds`. */
  function Count(ds: seq<int>, d: int): nat
  {
    if ds == [] then 0 else Count(ds[..|ds| - 1], d) + (if ds[|ds| - 1] == d then 1 else 0)
  }

  /** The index at which `d` first occurs in `ds`. */
  function First(ds: seq<int>, d: int): (p: nat)
    requires d in ds
    ensures p < |ds| && ds[p] == d
    ensures forall i :: 0 <= i < p ==> ds[i] != d
  {
    if ds[0] == d then 0 else 1 + First(ds[1..], d)
  }

  /** The `stats` dict of get_resolution: (difference, count) pairs in insertion order. */
  type Tally = seq<(int, nat)>

  /** `stats[diff] += 1`, inserting the difference at the end with count 0 first when it is new. */
  function Bump(t: Tally, d: int): Tally
  {
    if t == [] then [(d, 1)]
    else if t[0].0 == d then [(d, t[0].1 + 1)] + t[1..]
    else [t[0]] + Bump(t[1..], d)
  }

  /** The tally after all of `ds` has been counted, one difference after the other. */
  function TallyOf(ds: seq<int>): Tally
  {
    if ds == [] then [] else Bump(TallyOf(ds[..|ds| - 1]), ds[|ds| - 1])
  }

  /** The strict `>` scan of get_resolution's second loop: the largest count and the first entry holding it. */
  function Scan(t: Tally): (nat, Option<int>)
  {
    if t == [] then (0, None)
    else
      var prior := Scan(t[..|t| - 1]);
      var e := t[|t| - 1];
      if e.1 > prior.0 then (e.1, Some(e.0)) else prior
  }

  /** The value get_resolution returns, or ValueError when there is no date to count. */
  function Resolution(dates: seq<int>, now: int): Result<int>
  {
    var best := Scan(TallyOf(Diffs(dates, now))).1;
    if best.None? then Err(ValueError) else Ok(best.value)
  }

  /** get_resolution's two loops for timestamps that are already datetimes. */
  method DetectResolution(dates: seq<int>, now: int) returns (r: Result<int>)
    ensures r == Resolution(dates, now)
  {
    ghost var ds := Diffs(dates, now);
    var last := now;
    var stats: Tally := [];
    for i := 0 to |dates|
      invariant stats == TallyOf(ds[..i])
      invariant last == if i == 0 then now else dates[i - 1]
    {
      var diff := dates[i] - last;
      assert ds[..i + 1][..i] == ds[..i] && ds[..i + 1][i] == diff;
      stats := Bump(stats, diff);
      last := dates[i];
    }
    assert ds[..|dates|] == ds;
    var resMax: nat := 0;
    var currentMax: Option<int> := None;
    for j := 0 to |stats|
      invariant (resMax, currentMax) == Scan(stats[..j])
    {
      assert stats[..j + 1][..j] == stats[..j];
      if stats[j].1 > resMax {
        resMax := stats[j].1;
        currentMax := Some(stats[j].0);
      }
    }
    assert stats[..|stats|] == stats;
    if currentMax.None? {
      return Err(ValueError);
    }
    return Ok(currentMax.value);
  }

  /* ---------------------------------------------------------------- the tally */

  predicate DistinctKeys(t: Tally) {
    forall i, j :: 0 <= i < j < |t| ==> t[i].0 != t[j].0
  }

  /** Every entry is a difference of `ds` with its number of occurrences. */
  predicate Counted(ds: seq<int>, t: Tally) {
    forall j :: 0 <= j < |t| ==> t[j].0 in ds && t[j].1 == Count(ds, t[j].0)
  }

  /** Every difference of `ds` has an entry. */
  predicate Covers(ds: seq<int>, t: Tally) {
    forall i :: 0 <= i < |ds| ==> exists j :: 0 <= j < |t| && t[j].0 == ds[i]
  }

  /** The entries are in the order in which their differences first occur in `ds`. */
  predicate FirstSeenOrder(ds: seq<int>, t: Tally)
    requires Counted(ds, t)
  {
    forall i, j :: 0 <= i < j < |t| ==> First(ds, t[i].0) < First(ds, t[j].0)
  }

  /** `t` is the tally of `ds`: one entry per distinct difference, its count, in first-seen order. */
  predicate TallyFor(ds: seq<int>, t: Tally) {
    DistinctKeys(t) && Counted(ds, t) && Covers(ds, t) && FirstSeenOrder(ds, t)
  }

  lemma {:induction false} BumpExisting(t: Tally, d: int, p: nat)
    requires p < |t| && t[p].0 == d && DistinctKeys(t)
    ensures Bump(t, d) == t[p := (d, t[p].1 + 1)]
  {
    if p > 0 {
      BumpExisting(t[1..], d, p - 1);
    }
  }

  lemma {:induction false} BumpNew(t: Tally, d: int)
    requires forall j :: 0 <= j < |t| ==> t[j].0 != d
    ensures Bump(t, d) == t + [(d, 1)]
  {
    if t != [] {
      BumpNew(t[1..], d);
    }
  }

  lemma {:induction false} CountAbsent(ds: seq<int>, d: int)
    requires d !in ds
    ensures Count(ds, d) == 0
  {
    if ds != [] {
      CountAbsent(ds[..|ds| - 1], d);
    }
  }

  lemma {:induction false} CountPresent(ds: seq<int>, d: int)
    requires d in ds
    ensures Count(ds, d) >= 1
  {
    var init := ds[..|ds| - 1];
    if ds[|ds| - 1] != d {
      assert d in init;
      CountPresent(init, d);
    }
  }

  lemma {:induction false} FirstAppend(ds: seq<int>, d: int, x: int)
    requires x in ds
    ensures First(ds + [d], x) == First(ds, x)
  {
    if ds[0] != x {
      assert (ds + [d])[1..] == ds[1..] + [d];
      FirstAppend(ds[1..], d, x);
    }
  }

  lemma CountAppend(ds: seq<int>, d: int, x: int)
    ensures Count(ds + [d], x) == Count(ds, x) + (if x == d then 1 else 0)
  {
    assert (ds + [d])[..|ds|] == ds;
  }

  lemma CoversStep(init: seq<int>, d: int, t: Tally, t': Tally)
    requires Covers(init, t) && |t| <= |t'|
    requires forall j :: 0 <= j < |t| ==> t'[j].0 == t[j].0
    requires exists j :: 0 <= j < |t'| && t'[j].0 == d
    ensures Covers(init + [d], t')
  {
    var ds := init + [d];
    forall i | 0 <= i < |ds|
      ensures exists j :: 0 <= j < |t'| && t'[j].0 == ds[i]
    {
      if i < |init| {
        assert ds[i] == init[i];
        var j :| 0 <= j < |t| && t[j].0 == init[i];
        assert t'[j].0 == ds[i];
      }
    }
  }

  lemma OrderStep(init: seq<int>, d: int, t: Tally, t': Tally)
    requires Counted(init, t) && FirstSeenOrder(init, t) && Counted(init + [d], t')
    requires |t| <= |t'| && forall j :: 0 <= j < |t| ==> t'[j].0 == t[j].0
    requires |t| < |t'| ==> |t'| == |t| + 1 && d !in init && t'[|t|].0 == d
    ensures FirstSeenOrder(init + [d], t')
  {
    var ds := init + [d];
    forall i, j | 0 <= i < j < |t'|
      ensures First(ds, t'[i].0) < First(ds, t'[j].0)
    {
      FirstAppend(init, d, t[i].0);
      if j < |t| {
        FirstAppend(init, d, t[j].0);
      } else {
        assert First(ds, d) == |init|;
      }
    }
  }

  lemma CountedStepExisting(init: seq<int>, d: int, t: Tally, p: nat)
    requires DistinctKeys(t) && Counted(init, t) && p < |t| && t[p].0 == d
    ensures Counted(init + [d], t[p := (d, t[p].1 + 1)])
  {
    var ds, t' := init + [d], t[p := (d, t[p].1 + 1)];
    forall j | 0 <= j < |t'|
      ensures t'[j].0 in ds && t'[j].1 == Count(ds, t'[j].0)
    {
      CountAppend(init, d, t[j].0);
      if j != p {
        assert t'[j] == t[j] && t[j].0 != d;
      }
    }
  }

  /** Counting a difference already in the tally increments its entry and keeps the tally's shape. */
  lemma TallyStepExisting(init: seq<int>, d: int, t: Tally, p: nat)
    requires TallyFor(init, t) && p < |t| && t[p].0 == d
    ensures TallyFor(init + [d], t[p := (d, t[p].1 + 1)])
  {
    var t' := t[p := (d, t[p].1 + 1)];
    assert forall j :: 0 <= j < |t| ==> t'[j].0 == t[j].0;
    assert DistinctKeys(t');
    CountedStepExisting(init, d, t, p);
    CoversStep(init, d, t, t');
    OrderStep(init, d, t, t');
  }

  /** Counting a new difference appends it with count 1, after every difference seen before. */
  lemma TallyStepNew(init: seq<int>, d: int, t: Tally)
    requires TallyFor(init, t) && d !in init
    ensures TallyFor(init + [d], t + [(d, 1)])
  {
    var ds, t' := init + [d], t + [(d, 1)];
    assert forall j :: 0 <= j < |t| ==> t[j].0 != d;
    assert DistinctKeys(t');
    CountAbsent(init, d);
    forall j | 0 <= j < |t'|
      ensures t'[j].0 in ds && t'[j].1 == Count(ds, t'[j].0)
    {
      CountAppend(init, d, t'[j].0);
    }
    assert t'[|t|].0 == d;
    CoversStep(init, d, t, t');
    OrderStep(init, d, t, t');
  }

  /** TallyOf counts every difference, once per distinct value, in first-seen order. */
  lemma {:induction false} TallyOfIsTally(ds: seq<int>)
    ensures TallyFor(ds, TallyOf(ds))
  {
    if ds != [] {
      var init, d := ds[..|ds| - 1], ds[|ds| - 1];
      TallyOfIsTally(init);
      var t := TallyOf(init);
      assert ds == init + [d];
      if d in init {
        var i0 := First(init, d);
        var p :| 0 <= p < |t| && t[p].0 == init[i0];
        BumpExisting(t, d, p);
        TallyStepExisting(init, d, t, p);
      } else {
        assert forall j :: 0 <= j < |t| ==> t[j].0 != d;
        BumpNew(t, d);
        TallyStepNew(init, d, t);
      }
    }
  }

  /** The scan returns the largest count and the earliest entry holding it: every earlier entry counts less. */
  lemma {:induction false} ScanFindsFirstMaximum(t: Tally) returns (p: nat)
    requires forall j :: 0 <= j < |t| ==> t[j].1 >= 1
    ensures Scan(t).1.None? <==> t == []
    ensures t != [] ==> p < |t| && t[p] == (Scan(t).1.value, Scan(t).0)
    ensures t != [] ==> forall j :: 0 <= j < p ==> t[j].1 < Scan(t).0
    ensures t != [] ==> forall j :: 0 <= j < |t| ==> t[j].1 <= Scan(t).0
  {
    p := 0;
    if t != [] {
      var init := t[..|t| - 1];
      var q := ScanFindsFirstMaximum(init);
      if init != [] && t[|t| - 1].1 <= Scan(init).0 {
        p := q;
      } else {
        p := |t| - 1;
      }
    }
  }

  /** The entry a scan stops at, read back in terms of `ds`. */
  lemma FirstModeFromTally(ds: seq<int>, t: Tally, p: nat)
    requires TallyFor(ds, t) && p < |t|
    requires forall j :: 0 <= j < p ==> t[j].1 < t[p].1
    requires forall j :: 0 <= j < |t| ==> t[j].1 <= t[p].1
    ensures t[p].0 in ds
    ensures forall i :: 0 <= i < |ds| ==> Count(ds, ds[i]) <= Count(ds, t[p].0)
    ensures forall i :: 0 <= i < First(ds, t[p].0) ==> Count(ds, ds[i]) < Count(ds, t[p].0)
  {
    var r := t[p].0;
    forall i | 0 <= i < |ds|
      ensures Count(ds, ds[i]) <= Count(ds, r)
      ensures i < First(ds, r) ==> Count(ds, ds[i]) < Count(ds, r)
    {
      var j :| 0 <= j < |t| && t[j].0 == ds[i];
      if i < First(ds, r) {
        assert First(ds, ds[i]) <= i;
        assert j != p;
        assert !(p < j);
      }
    }
  }

  /** The scan over the tally of `ds` picks a most frequent difference, the first-seen one among equals. */
  lemma ScanOfTallyIsFirstMode(ds: seq<int>)
    ensures Scan(TallyOf(ds)).1.None? <==> ds == []
    ensures Scan(TallyOf(ds)).1.Some? ==>
      && Scan(TallyOf(ds)).1.value in ds
      && (forall i :: 0 <= i < |ds| ==> Count(ds, ds[i]) <= Count(ds, Scan(TallyOf(ds)).1.value))
      && (forall i :: 0 <= i < First(ds, Scan(TallyOf(ds)).1.value) ==>
            Count(ds, ds[i]) < Count(ds, Scan(TallyOf(ds)).1.value))
  {
    var t := TallyOf(ds);
    TallyOfIsTally(ds);
    forall j | 0 <= j < |t|
      ensures t[j].1 >= 1
    {
      CountPresent(ds, t[j].0);
    }
    var p := ScanFindsFirstMaximum(t);
    if ds != [] {
      assert exists j :: 0 <= j < |t| && t[j].0 == ds[0];
    }
    if t != [] {
      FirstModeFromTally(ds, t, p);
    }
  }

  /**
   * get_resolution returns a mode of the differences: one that occurs at least as often as any other, and more
   * often than every difference seen before it. It raises ValueError exactly when there are no timestamps.
   */
  lemma ResolutionIsFirstMode(dates: seq<int>, now: int)
    ensures Resolution(dates, now).Err? <==> dates == []
    ensures Resolution(dates, now).Err? ==> Resolution(dates, now).error == ValueError
    ensures Resolution(dates, now).Ok? ==>
      && Resolution(dates, now).value in Diffs(dates, now)
      && (forall i :: 0 <= i < |dates| ==>
            Count(Diffs(dates, now), Diffs(dates, now)[i]) <=
            Count(Diffs(dates, now), Resolution(dates, now).value))
      && (forall i :: 0 <= i < First(Diffs(dates, now), Resolution(dates, now).value) ==>
            Count(Diffs(dates, now), Diffs(dates, now)[i]) <
            Count(Diffs(dates, now), Resolution(dates, now).value))
  {
    ScanOfTallyIsFirstMode(Diffs(dates, now));
  }

  /* ---------------------------------------------------------------- consequences */

  lemma {:induction false} CountRegular(ds: seq<int>, g: int)
    requires forall i :: 0 < i < |ds| ==> ds[i] == g
    ensures Count(ds, g) + 1 >= |ds|
    ensures forall x :: x != g ==> Count(ds, x) <= 1
  {
    if ds != [] {
      CountRegular(ds[..|ds| - 1], g);
      if |ds| > 1 {
        assert ds[|ds| - 1] == g;
      } else {
        assert ds[..0] == [];
      }
    }
  }

  /** Three or more timestamps spaced `g` apart have resolution `g`, whatever the current time. */
  lemma RegularSeriesResolution(dates: seq<int>, now: int, g: int)
    requires |dates| >= 3
    requires forall i :: 0 < i < |dates| ==> dates[i] - dates[i - 1] == g
    ensures Resolution(dates, now) == Ok(g)
  {
    var ds := Diffs(dates, now);
    CountRegular(ds, g);
    ResolutionIsFirstMode(dates, now);
    var r := Resolution(dates, now).value;
    assert Count(ds, ds[1]) <= Count(ds, r);
  }

  /** With exactly two timestamps the difference to `now`, seen first, wins the tie. */
  lemma TwoPointResolution(a: int, b: int, now: int)
    ensures Resolution([a, b], now) == Ok(a - now)
  {
    var ds := Diffs([a, b], now);
    assert ds == [a - now, b - a];
    ResolutionIsFirstMode([a, b], now);
    var r := Resolution([a, b], now).value;
    assert ds[..1] == [a - now] && [a - now][..0] == [];
    assert Count([a - now], a - now) == 1;
    assert Count([a - now], b - a) == (if a - now == b - a then 1 else 0);
    assert ds[..|ds| - 1] == [a - now] && ds[|ds| - 1] == b - a;
    assert a - now != b - a ==> Count(ds, a - now) == 1 && Count(ds, b - a) == 1;
    assert a - now != b - a ==> First(ds, b - a) == 1;
    if r != a - now {
      assert false;
    }
  }
}
