/**
 * `default_options` (pbu/default_options.py): merge user options over defaults into a new dict. Both dicts are
 * values here, so neither can be changed by the merge.
 */
module DefaultOptions {
  import opened Results
  import opened Values

  /**
   * The merged dict: every default key, plus every override key when unknown keys are allowed; a key the override
   * has takes the override's value.
   */
  function Merged(default: Dict, override: Dict, allowUnknownKeys: bool): Dict {
    map k | k in default.Keys + (if allowUnknownKeys then override.Keys else {}) ::
      if k in override then override[k] else default[k]
  }

  /** `default_options(default, override, allow_unknown_keys)`; `None` for either dict returns `default`. */
  method Merge(default: Option<Dict>, override: Option<Dict>, allowUnknownKeys: bool) returns (r: Option<Dict>)
    ensures default.None? || override.None? ==> r == default
    ensures default.Some? && override.Some? ==> r == Some(Merged(default.value, override.value, allowUnknownKeys))
  {
    if override.None? || default.None? {
      return default;
    }
    var d, o := default.value, override.value;
    var result: Dict := map[];
    var todo := d.Keys;
    while todo != {}
      invariant todo <= d.Keys
      invariant result == map k | k in d.Keys - todo :: d[k]
      decreases todo
    {
      var key :| key in todo;
      result := result[key := d[key]];
      todo := todo - {key};
    }
    todo := o.Keys;
    while todo != {}
      invariant todo <= o.Keys
      invariant result == map k | k in d.Keys + Taken(o.Keys - todo, d, allowUnknownKeys) ::
        if k in o.Keys - todo then o[k] else d[k]
      decreases todo
    {
      var key :| key in todo;
      if key in d || allowUnknownKeys {
        result := result[key := o[key]];
      }
      todo := todo - {key};
    }
    assert o.Keys - todo == o.Keys;
    assert d.Keys + Taken(o.Keys, d, allowUnknownKeys) == d.Keys + (if allowUnknownKeys then o.Keys else {});
    return Some(result);
  }

  /** The override keys among `seen` that the second loop writes: known keys, or all of them when allowed. */
  function Taken(seen: set<string>, default: Dict, allowUnknownKeys: bool): set<string> {
    set k | k in seen && (k in default || allowUnknownKeys)
  }

  /**
   * The merged dict keeps every default key; a key the override has takes the override's value, any other key the
   * default's; without unknown keys the key set is the default's, with them it is the union.
   */
  lemma MergedSpec(default: Dict, override: Dict, allowUnknownKeys: bool)
    ensures var r := Merged(default, override, allowUnknownKeys);
      && default.Keys <= r.Keys
      && (allowUnknownKeys ==> r.Keys == default.Keys + override.Keys)
      && (!allowUnknownKeys ==> r.Keys == default.Keys)
      && (forall k :: k in r && k in override ==> r[k] == override[k])
      && (forall k :: k in r && k !in override ==> r[k] == default[k])
  {
  }

  /** Merging a dict over itself gives it back, whether or not unknown keys are allowed. */
  lemma MergeIdempotent(d: Dict, allowUnknownKeys: bool)
    ensures Merged(d, d, allowUnknownKeys) == d
  {
  }

  /** Merging an empty override gives the defaults, and merging over empty defaults keeps only allowed keys. */
  lemma MergeEmpty(d: Dict)
    ensures Merged(d, map[], false) == d && Merged(d, map[], true) == d
    ensures Merged(map[], d, false) == map[] && Merged(map[], d, true) == d
  {
  }
}
