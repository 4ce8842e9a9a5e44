/**
 * `JsonDocument` (pbu/json_document.py): an object whose attributes are written to and read from a JSON dict under
 * the names a subclass's attribute mapping gives. An object's attributes are a dict from attribute name to value;
 * an attribute holding `None` maps to `Values.Null`, an attribute the object lacks is absent from the dict.
 */
module JsonDocuments {
  import opened Results
  import opened Values

  /** A subclass's attribute mapping, as (attribute name, JSON name) pairs in the dict's iteration order. */
  type Mapping = seq<(string, string)>

  /** What the subclass's `get_attribute_mapping` returns. */
  datatype Returned = DictValue(pairs: Mapping) | NotDict

  /** Whether the subclass overrides `get_attribute_mapping`, and if so what the override returns. */
  datatype Hook = Inherited | Overridden(answer: Returned)

  /** A mapping that comes from a dict names every attribute once. */
  predicate Keyed(m: Mapping) {
    forall i, k :: 0 <= i < k < |m| ==> m[i].0 != m[k].0
  }

  /** No two attributes are written under the same JSON name. */
  predicate Injective(m: Mapping) {
    forall i, k :: 0 <= i < k < |m| ==> m[i].1 != m[k].1
  }

  /** `_get_attribute_mapping`: the subclass's mapping when it overrides the hook with a dict, `None` otherwise. */
  function AttributeMapping(hook: Hook): (r: Option<Mapping>)
    ensures r.None? <==> hook.Inherited? || hook.answer.NotDict?
    ensures r.Some? ==> hook.Overridden? && hook.answer == DictValue(r.value)
  {
    match hook
    case Inherited => None
    case Overridden(NotDict) => None
    case Overridden(DictValue(pairs)) => Some(pairs)
  }

  /** Entry `i` of the mapping names an attribute the object has and whose value is not `None`. */
  predicate Written(attrs: Dict, m: Mapping, i: int)
    requires 0 <= i < |m|
  {
    m[i].0 in attrs && !attrs[m[i].0].Null?
  }

  /** Pair `i` is written and no later pair writes a value under the same JSON name. */
  predicate LastWriter(attrs: Dict, m: Mapping, i: int)
    requires 0 <= i < |m|
  {
    Written(attrs, m, i) && forall k :: i < k < |m| && m[k].1 == m[i].1 ==> !Written(attrs, m, k)
  }

  /** The loop of `to_json` over the pairs of `m`: reading an attribute the object lacks raises AttributeError. */
  function Serialised(attrs: Dict, m: Mapping): (r: Result<Dict>)
    ensures r.Err? ==> r.error == AttributeError
    decreases |m|
  {
    if |m| == 0 then Ok(map[])
    else
      var before :- Serialised(attrs, m[..|m| - 1]);
      var (name, jsonName) := m[|m| - 1];
      if name !in attrs then Err(AttributeError)
      else if attrs[name].Null? then Ok(before)
      else Ok(before[jsonName := attrs[name]])
  }

  /** `to_json` of an object with the attributes `attrs`: `{}` without a mapping. */
  function ToJsonOf(attrs: Dict, hook: Hook): Result<Dict> {
    match AttributeMapping(hook)
    case None => Ok(map[])
    case Some(m) => Serialised(attrs, m)
  }

  /** The loop of `extract_system_fields` over the pairs of `m`. */
  function Extracted(attrs: Dict, m: Mapping, json: Dict): Dict
    decreases |m|
  {
    if |m| == 0 then attrs
    else
      var before := Extracted(attrs, m[..|m| - 1], json);
      var (name, jsonName) := m[|m| - 1];
      if jsonName in json then before[name := json[jsonName]] else before
  }

  /** The attributes after `extract_system_fields(json)`: unchanged without a mapping. */
  function ExtractOf(attrs: Dict, hook: Hook, json: Dict): Dict {
    match AttributeMapping(hook)
    case None => attrs
    case Some(m) => Extracted(attrs, m, json)
  }

  /** The loop of `apply_updates` over `names`, copying from the update's attributes `src`. */
  function Updated(attrs: Dict, src: Dict, names: seq<string>): (r: Dict)
    ensures r.Keys == attrs.Keys
    decreases |names|
  {
    if |names| == 0 then attrs
    else
      var before := Updated(attrs, src, names[..|names| - 1]);
      var name := names[|names| - 1];
      if name in before && name in src then before[name := src[name]] else before
  }

  /** Some entry of `m` maps attribute `x` to a JSON name present in `json`. */
  predicate Sets(m: Mapping, json: Dict, x: string) {
    exists i :: 0 <= i < |m| && m[i].0 == x && m[i].1 in json
  }

  class Document {
    /** The instance's attributes. */
    var attrs: Dict
    /** How the instance's class defines `get_attribute_mapping`. */
    const hook: Hook
    /** The instance's class and all its ancestors, by name; `className` is the first. */
    const classes: set<string>
    const className: string

    constructor (attrs: Dict, hook: Hook, className: string, ancestors: set<string>)
      ensures this.attrs == attrs && this.hook == hook
      ensures this.className == className && this.classes == ancestors + {className}
    {
      this.attrs := attrs;
      this.hook := hook;
      this.className := className;
      this.classes := ancestors + {className};
    }

    /** `to_json`. */
    method ToJson() returns (r: Result<Dict>)
      ensures r == ToJsonOf(attrs, hook)
    {
      var mapping := AttributeMapping(hook);
      if mapping.None? {
        return Ok(map[]);
      }
      var m := mapping.value;
      var result: Dict := map[];
      var i := 0;
      while i < |m|
        invariant 0 <= i <= |m|
        invariant Serialised(attrs, m[..i]) == Ok(result)
      {
        var (name, jsonName) := m[i];
        assert m[..i + 1][..i] == m[..i];
        if name !in attrs {
          SerialisedFails(attrs, m, i + 1);
          return Err(AttributeError);
        }
        if !attrs[name].Null? {
          result := result[jsonName := attrs[name]];
        }
        i := i + 1;
      }
      assert m[..i] == m;
      return Ok(result);
    }

    /** `extract_system_fields(json)`. */
    method ExtractSystemFields(json: Dict)
      modifies this
      ensures attrs == ExtractOf(old(attrs), hook, json)
    {
      var mapping := AttributeMapping(hook);
      if mapping.None? {
        return;
      }
      var m := mapping.value;
      var i := 0;
      while i < |m|
        invariant 0 <= i <= |m|
        invariant attrs == Extracted(old(attrs), m[..i], json)
      {
        var (name, jsonName) := m[i];
        assert m[..i + 1][..i] == m[..i];
        if jsonName in json {
          attrs := attrs[name := json[jsonName]];
        }
        i := i + 1;
      }
      assert m[..i] == m;
    }

    /**
     * `apply_updates(update, attributes)`: ValueError unless `update` is an instance of this object's class
     * (`None` never is); otherwise each listed attribute both objects have is copied.
     */
    method ApplyUpdates(update: Document?, attributes: seq<string>) returns (r: Outcome)
      modifies this
      ensures update == null || className !in update.classes ==> r == Failed(ValueError) && attrs == old(attrs)
      ensures update != null && className in update.classes ==>
        r == Done && attrs == Updated(old(attrs), old(update.attrs), attributes)
    {
      if update == null || className !in update.classes {
        return Failed(ValueError);
      }
      var src := update.attrs;
      var i := 0;
      while i < |attributes|
        invariant 0 <= i <= |attributes|
        invariant attrs == Updated(old(attrs), src, attributes[..i])
      {
        var name := attributes[i];
        assert attributes[..i + 1][..i] == attributes[..i];
        if name in attrs && name in src {
          attrs := attrs[name := src[name]];
        }
        i := i + 1;
      }
      assert attributes[..i] == attributes;
      return Done;
    }
  }

  /** Once a prefix of the mapping names a missing attribute, the whole serialisation fails. */
  lemma {:induction false} SerialisedFails(attrs: Dict, m: Mapping, k: nat)
    requires k <= |m| && Serialised(attrs, m[..k]).Err?
    ensures Serialised(attrs, m) == Err(AttributeError)
    decreases |m| - k
  {
    if k < |m| {
      assert m[..k + 1][..k] == m[..k];
      SerialisedFails(attrs, m, k + 1);
    } else {
      assert m[..k] == m;
    }
  }

  /** Some pair of `m` writes a value under the JSON name `j`. */
  predicate Writes(attrs: Dict, m: Mapping, j: string) {
    exists i :: 0 <= i < |m| && m[i].1 == j && Written(attrs, m, i)
  }

  /** `to_json` succeeds exactly when the object has every mapped attribute. */
  lemma {:induction false} SerialisedOk(attrs: Dict, m: Mapping)
    ensures Serialised(attrs, m).Ok? <==> forall i :: 0 <= i < |m| ==> m[i].0 in attrs
    decreases |m|
  {
    if |m| > 0 {
      var init := m[..|m| - 1];
      SerialisedOk(attrs, init);
      assert forall i :: 0 <= i < |init| ==> init[i] == m[i];
    }
  }

  /** A successful `to_json` holds exactly the JSON names that some pair writes a non-`None` attribute under. */
  lemma {:induction false} SerialisedKeys(attrs: Dict, m: Mapping)
    requires Serialised(attrs, m).Ok?
    ensures forall j :: j in Serialised(attrs, m).value <==> Writes(attrs, m, j)
    decreases |m|
  {
    if |m| > 0 {
      var init := m[..|m| - 1];
      SerialisedKeys(attrs, init);
      assert forall i :: 0 <= i < |init| ==> init[i] == m[i];
      var out := Serialised(attrs, m).value;
      var before := Serialised(attrs, init).value;
      forall j
        ensures j in out <==> Writes(attrs, m, j)
      {
        if j in before {
          var i :| 0 <= i < |init| && init[i].1 == j && Written(attrs, init, i);
          assert m[i].1 == j && Written(attrs, m, i);
        }
        if Writes(attrs, m, j) {
          var i :| 0 <= i < |m| && m[i].1 == j && Written(attrs, m, i);
          if i < |init| {
            assert Written(attrs, init, i);
          }
        }
      }
    }
  }

  /** Under each JSON name a successful `to_json` holds the value of the last pair that writes there. */
  lemma {:induction false} SerialisedValues(attrs: Dict, m: Mapping)
    requires Serialised(attrs, m).Ok?
    ensures forall i :: 0 <= i < |m| && LastWriter(attrs, m, i) ==>
      m[i].1 in Serialised(attrs, m).value && Serialised(attrs, m).value[m[i].1] == attrs[m[i].0]
    decreases |m|
  {
    if |m| > 0 {
      var init := m[..|m| - 1];
      SerialisedValues(attrs, init);
      assert forall i :: 0 <= i < |init| ==> init[i] == m[i];
      forall i | 0 <= i < |init| && LastWriter(attrs, m, i)
        ensures LastWriter(attrs, init, i)
      {
      }
    }
  }

  /**
   * `extract_system_fields` leaves every attribute that no pair with a present JSON name maps unchanged, and sets
   * each mapped attribute whose JSON name is present to that JSON value.
   */
  lemma {:induction false} ExtractedSpec(attrs: Dict, m: Mapping, json: Dict)
    requires Keyed(m)
    ensures forall x :: x in Extracted(attrs, m, json) <==> x in attrs || Sets(m, json, x)
    ensures forall x :: x in attrs && !Sets(m, json, x) ==>
      x in Extracted(attrs, m, json) && Extracted(attrs, m, json)[x] == attrs[x]
    ensures forall i :: 0 <= i < |m| && m[i].1 in json ==>
      m[i].0 in Extracted(attrs, m, json) && Extracted(attrs, m, json)[m[i].0] == json[m[i].1]
    decreases |m|
  {
    if |m| > 0 {
      var init := m[..|m| - 1];
      assert forall i :: 0 <= i < |init| ==> init[i] == m[i];
      ExtractedSpec(attrs, init, json);
      forall x
        ensures Sets(m, json, x) <==> Sets(init, json, x) || (m[|m| - 1].0 == x && m[|m| - 1].1 in json)
      {
        if Sets(m, json, x) {
          var i :| 0 <= i < |m| && m[i].0 == x && m[i].1 in json;
          if i < |init| {
            assert init[i].0 == x && init[i].1 in json;
          }
        }
        if Sets(init, json, x) {
          var i :| 0 <= i < |init| && init[i].0 == x && init[i].1 in json;
          assert m[i].0 == x && m[i].1 in json;
        }
      }
    }
  }

  /**
   * Round trip: extracting `to_json` of an object into any other object restores every mapped attribute that was
   * not `None`, provided no two attributes share a JSON name; attributes outside the mapping keep their values.
   */
  lemma RoundTrip(attrs: Dict, m: Mapping, target: Dict)
    requires Keyed(m) && Injective(m)
    requires Serialised(attrs, m).Ok?
    ensures var out := Extracted(target, m, Serialised(attrs, m).value);
      && (forall i :: 0 <= i < |m| && Written(attrs, m, i) ==> m[i].0 in out && out[m[i].0] == attrs[m[i].0])
      && (forall x :: x in target && (forall i :: 0 <= i < |m| ==> m[i].0 != x) ==> x in out && out[x] == target[x])
  {
    var json := Serialised(attrs, m).value;
    SerialisedKeys(attrs, m);
    SerialisedValues(attrs, m);
    ExtractedSpec(target, m, json);
    var out := Extracted(target, m, json);
    forall i | 0 <= i < |m| && Written(attrs, m, i)
      ensures out[m[i].0] == attrs[m[i].0]
    {
      assert m[i].1 in json;
      assert json[m[i].1] == attrs[m[i].0];
    }
  }

  /** `apply_updates` copies exactly the listed attributes both objects have and keeps every other value. */
  lemma {:induction false} UpdatedSpec(attrs: Dict, src: Dict, names: seq<string>)
    ensures forall x :: x in attrs ==>
      Updated(attrs, src, names)[x] == (if x in names && x in src then src[x] else attrs[x])
    decreases |names|
  {
    if |names| > 0 {
      var init := names[..|names| - 1];
      UpdatedSpec(attrs, src, init);
      assert names == init + [names[|names| - 1]];
    }
  }

  /** `list_to_json`: every item's `to_json`, in order; the first failing item's error otherwise. */
  function ListToJson(items: seq<Document>): (r: Result<seq<Dict>>)
    reads items
    ensures r.Ok? <==> forall i :: 0 <= i < |items| ==> ToJsonOf(items[i].attrs, items[i].hook).Ok?
    ensures r.Ok? ==> (|r.value| == |items| &&
      forall i :: 0 <= i < |items| ==> r.value[i] == ToJsonOf(items[i].attrs, items[i].hook).value)
    decreases |items|
  {
    if |items| == 0 then Ok([])
    else
      var first :- ToJsonOf(items[0].attrs, items[0].hook);
      var rest :- ListToJson(items[1..]);
      Ok([first] + rest)
  }

  /**
   * `list_from_json`: ValueError unless the class is a JsonDocument subclass; otherwise the class's `from_json`
   * applied to every dict, in order.
   */
  function ListFromJson<T>(jsonList: seq<Dict>, isDocumentClass: bool, fromJson: Dict -> T): (r: Result<seq<T>>)
    ensures r.Err? <==> !isDocumentClass
    ensures r.Err? ==> r.error == ValueError
    ensures r.Ok? ==> |r.value| == |jsonList| && forall i :: 0 <= i < |jsonList| ==> r.value[i] == fromJson(jsonList[i])
  {
    if !isDocumentClass then Err(ValueError)
    else Ok(seq(|jsonList|, i requires 0 <= i < |jsonList| => fromJson(jsonList[i])))
  }
}
