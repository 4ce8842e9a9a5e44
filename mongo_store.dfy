/**
 * The MongoDB helpers of pbu/mongo_store.py that do not talk to the database: the update-statement builders of
 * `AbstractMongoStore`, the `_id` and version handling in `create`, `update_one` and `update`, and the id and version
 * fields of `AbstractMongoDocument`. A dict the caller owns and the helpers change in place is a `PyDict` object; a
 * dict a helper builds afresh is a value.
 */
module MongoStore {
  import opened Results
  import opened Values

  /** A dict owned by the caller. */
  class PyDict {
    var entries: Dict

    constructor (entries: Dict)
      ensures this.entries == entries
    {
      this.entries := entries;
    }
  }

  /** The `keys` argument of `set_update` and `unset_update`: a string, a list of strings, or anything else. */
  datatype Keys = OneKey(key: string) | KeyList(keys: seq<string>) | OtherKeys

  /**
   * `set_update_full(doc)`: removes `"_id"` from the caller's dict and wraps that same dict as the `$set` part of
   * an update statement.
   */
  method SetUpdateFull(doc: PyDict) returns (update: map<string, PyDict>)
    modifies doc
    ensures doc.entries == old(doc.entries) - {"_id"}
    ensures update == map["$set" := doc]
  {
    if "_id" in doc.entries {
      doc.entries := doc.entries - {"_id"};
    }
    update := map["$set" := doc];
  }

  /** `unset_update(keys)`: every given key mapped to 1 under `$unset`; nothing for an argument of another type. */
  method UnsetUpdate(keys: Keys) returns (update: map<string, Dict>)
    ensures update.Keys == {"$unset"}
    ensures forall k :: k in update["$unset"] ==> update["$unset"][k] == Int(1)
    ensures keys.OneKey? ==> update["$unset"].Keys == {keys.key}
    ensures keys.KeyList? ==> update["$unset"].Keys == set k | k in keys.keys
    ensures keys.OtherKeys? ==> update["$unset"] == map[]
  {
    var unset: Dict := map[];
    match keys {
      case OneKey(key) =>
        unset := unset[key := Int(1)];
      case KeyList(ks) =>
        var i := 0;
        while i < |ks|
          invariant 0 <= i <= |ks|
          invariant unset == map k | k in ks[..i] :: Int(1)
        {
          assert ks[..i + 1] == ks[..i] + [ks[i]];
          unset := unset[ks[i] := Int(1)];
          i := i + 1;
        }
        assert ks[..i] == ks;
      case OtherKeys =>
    }
    update := map["$unset" := unset];
  }

  /** The number of items `values[index]` can reach, or `None` when `values` cannot be indexed (a TypeError). */
  function Length(values: Value): Option<nat> {
    match values
    case List(items) => Some(|items|)
    case Text(s) => Some(|s|)
    case _ => None
  }

  /** Python's `values[index]` for a non-negative index. */
  function Item(values: Value, index: nat): (r: Result<Value>)
    ensures r.Ok? <==> Length(values).Some? && index < Length(values).value
    ensures r.Err? ==> r.error == (if Length(values).None? then TypeError else IndexError)
  {
    match values
    case List(items) => if index < |items| then Ok(items[index]) else Err(IndexError)
    case Text(s) => if index < |s| then Ok(Text([s[index]])) else Err(IndexError)
    case _ => Err(TypeError)
  }

  /** The loop of `set_update` over a list of keys: `keys[i]` is given `values[i]`, a later duplicate winning. */
  function Assigned(ks: seq<string>, values: Value): Result<Dict>
    decreases |ks|
  {
    if |ks| == 0 then Ok(map[])
    else
      var before :- Assigned(ks[..|ks| - 1], values);
      var v :- Item(values, |ks| - 1);
      Ok(before[ks[|ks| - 1] := v])
  }

  /** The `$set` part `set_update(keys, values)` builds. */
  function SetPart(keys: Keys, values: Value): Result<Dict> {
    match keys
    case OneKey(key) => Ok(map[key := values])
    case KeyList(ks) => Assigned(ks, values)
    case OtherKeys => Ok(map[])
  }

  /** `set_update(keys, values)`. */
  method SetUpdate(keys: Keys, values: Value) returns (r: Result<map<string, Dict>>)
    ensures SetPart(keys, values).Err? ==> r == Err(SetPart(keys, values).error)
    ensures SetPart(keys, values).Ok? ==> r == Ok(map["$set" := SetPart(keys, values).value])
  {
    var fields: Dict := map[];
    match keys {
      case OneKey(key) =>
        fields := fields[key := values];
      case KeyList(ks) =>
        var i := 0;
        while i < |ks|
          invariant 0 <= i <= |ks|
          invariant Assigned(ks[..i], values) == Ok(fields)
        {
          assert ks[..i + 1][..i] == ks[..i];
          var v := Item(values, i);
          if v.Err? {
            AssignedFails(ks, values, i + 1);
            return Err(v.error);
          }
          fields := fields[ks[i] := v.value];
          i := i + 1;
        }
        assert ks[..i] == ks;
      case OtherKeys =>
    }
    return Ok(map["$set" := fields]);
  }

  /** A failure on a prefix of the keys is the failure of the whole list. */
  lemma {:induction false} AssignedFails(ks: seq<string>, values: Value, n: nat)
    requires n <= |ks| && Assigned(ks[..n], values).Err?
    ensures Assigned(ks, values) == Err(Assigned(ks[..n], values).error)
    decreases |ks| - n
  {
    if n < |ks| {
      assert ks[..n + 1][..n] == ks[..n];
      AssignedFails(ks, values, n + 1);
    } else {
      assert ks[..n] == ks;
    }
  }

  /**
   * `set_update` with a list of keys succeeds exactly when there are no keys or `values` can be indexed at every
   * key's position; otherwise it raises TypeError when `values` cannot be indexed at all, IndexError when it is
   * too short.
   */
  lemma {:induction false} AssignedOk(ks: seq<string>, values: Value)
    ensures Assigned(ks, values).Ok? <==>
      |ks| == 0 || (Length(values).Some? && |ks| <= Length(values).value)
    ensures Assigned(ks, values).Err? ==>
      Assigned(ks, values).error == (if Length(values).None? then TypeError else IndexError)
    decreases |ks|
  {
    if |ks| > 0 {
      AssignedOk(ks[..|ks| - 1], values);
    }
  }

  /** A successful `set_update` sets exactly the listed keys, each to the value at its last occurrence's position. */
  lemma {:induction false} AssignedValues(ks: seq<string>, values: Value)
    requires Assigned(ks, values).Ok?
    ensures Assigned(ks, values).value.Keys == set k | k in ks
    ensures forall i :: 0 <= i < |ks| && (forall j :: i < j < |ks| ==> ks[j] != ks[i]) ==>
      ks[i] in Assigned(ks, values).value && Assigned(ks, values).value[ks[i]] == Item(values, i).value
    decreases |ks|
  {
    if |ks| > 0 {
      var init := ks[..|ks| - 1];
      AssignedValues(init, values);
      assert ks == init + [ks[|ks| - 1]];
      var out := Assigned(ks, values).value;
      forall i | 0 <= i < |init| && (forall j :: i < j < |ks| ==> ks[j] != ks[i])
        ensures ks[i] in out && out[ks[i]] == Item(values, i).value
      {
        assert init[i] == ks[i];
      }
    }
  }

  /** A list of keys with a list of at least as many values pairs them up by position. */
  lemma SetUpdateByPosition(ks: seq<string>, items: seq<Value>)
    requires |ks| <= |items|
    requires forall i, j :: 0 <= i < j < |ks| ==> ks[i] != ks[j]
    ensures SetPart(KeyList(ks), List(items)).Ok?
    ensures forall i :: 0 <= i < |ks| ==>
      ks[i] in SetPart(KeyList(ks), List(items)).value && SetPart(KeyList(ks), List(items)).value[ks[i]] == items[i]
  {
    AssignedOk(ks, List(items));
    AssignedValues(ks, List(items));
  }

  /** `update_one` turns a string `_id` in the query into an ObjectId. */
  function SanitisedQuery(query: Dict): (r: Dict)
    ensures r.Keys == query.Keys
    ensures forall k :: k in query && k != "_id" ==> r[k] == query[k]
    ensures "_id" in query ==> r["_id"] == (if query["_id"].Text? then ObjectId(query["_id"].s) else query["_id"])
  {
    if "_id" in query && query["_id"].Text? then query["_id" := ObjectId(query["_id"].s)] else query
  }

  /**
   * The sanitising `update_one(query, update)` does before handing both to the collection: the query's string
   * `_id` becomes an ObjectId and `_id` is removed from the `$set` part, both in place.
   */
  method UpdateOne(query: PyDict, update: map<string, PyDict>)
    modifies query, if "$set" in update then {update["$set"]} else {}
    ensures "$set" in update ==> "_id" !in update["$set"].entries
    ensures "$set" in update && update["$set"] != query ==> update["$set"].entries == old(update["$set"].entries) - {"_id"}
    ensures "$set" !in update || update["$set"] != query ==> query.entries == SanitisedQuery(old(query.entries))
    ensures "$set" in update && update["$set"] == query ==>
      query.entries == SanitisedQuery(old(query.entries)) - {"_id"}
  {
    if "_id" in query.entries && query.entries["_id"].Text? {
      query.entries := query.entries["_id" := ObjectId(query.entries["_id"].s)];
    }
    if "$set" in update && "_id" in update["$set"].entries {
      var setPart := update["$set"];
      setPart.entries := setPart.entries - {"_id"};
    }
  }

  /** The sanitising `update(query, update)` does: `_id` is removed from the `$set` part in place. */
  method Update(update: map<string, PyDict>)
    modifies if "$set" in update then {update["$set"]} else {}
    ensures "$set" in update ==> update["$set"].entries == old(update["$set"].entries) - {"_id"}
  {
    if "$set" in update && "_id" in update["$set"].entries {
      var setPart := update["$set"];
      setPart.entries := setPart.entries - {"_id"};
    }
  }

  /** The document handed to `create`: a dict, an object with `to_json` (and what it returns), or anything else. */
  datatype Creatable = PlainDict(d: PyDict) | Serialisable(json: Option<Dict>) | Unsupported

  /** `create` overwrites the version of a document that has one with the store's data model version. */
  function Versioned(doc: Dict, version: Value): (r: Dict)
    ensures r.Keys == doc.Keys
    ensures forall k :: k in doc && k != "version" ==> r[k] == doc[k]
    ensures "version" in doc ==> r["version"] == version
  {
    if "version" in doc then doc["version" := version] else doc
  }

  /**
   * The document `create` inserts: ValueError unless it is a dict or `to_json` returns one; a caller's dict gets
   * its version overwritten in place.
   */
  method Create(document: Creatable, version: Value) returns (r: Result<Dict>)
    modifies if document.PlainDict? then {document.d} else {}
    ensures document.Unsupported? || document == Serialisable(Option.None) ==> r == Err(ValueError)
    ensures document.Serialisable? && document.json.Some? ==> r == Ok(Versioned(document.json.value, version))
    ensures document.PlainDict? ==>
      document.d.entries == Versioned(old(document.d.entries), version) && r == Ok(document.d.entries)
  {
    match document {
      case PlainDict(d) =>
        if "version" in d.entries {
          d.entries := d.entries["version" := version];
        }
        return Ok(d.entries);
      case Serialisable(json) =>
        if json.None? {
          return Err(ValueError);
        }
        return Ok(Versioned(json.value, version));
      case Unsupported =>
        return Err(ValueError);
    }
  }

  /** The id the constructor stores: `None` and strings as given, anything else as its `str()`. */
  function StoredId(docId: Value): (r: Value)
    ensures r.Null? || r.Text?
    ensures docId.Null? || docId.Text? ==> r == docId
    ensures docId.ObjectId? ==> r == Text(docId.hex)
  {
    if docId.Null? || docId.Text? then docId else Text(Str(docId))
  }

  /** The dict `AbstractMongoDocument.to_json` builds from the id and version. */
  function SystemJson(id: Value, version: Value): (r: Dict)
    ensures r.Keys == (if id.Null? then {} else {"_id"}) + (if version.Null? then {} else {"version"})
    ensures "_id" in r ==> r["_id"] == Text(Str(id))
    ensures "version" in r ==> r["version"] == version
  {
    var withId: Dict := if id.Null? then map[] else map["_id" := Text(Str(id))];
    if version.Null? then withId else withId["version" := version]
  }

  /** The id and version after `AbstractMongoDocument.extract_system_fields(json)`. */
  function SystemFields(id: Value, version: Value, json: Dict): (Value, Value) {
    (if "_id" in json then Text(Str(json["_id"])) else id, if "version" in json then json["version"] else version)
  }

  class MongoDocument {
    var id: Value
    var version: Value

    /** The id is always `None` or a string. */
    ghost predicate Valid()
      reads this
    {
      id.Null? || id.Text?
    }

    /** `AbstractMongoDocument.__init__(doc_id, data_model_version)`. */
    constructor (docId: Value, dataModelVersion: Value)
      ensures Valid()
      ensures id == StoredId(docId) && version == dataModelVersion
    {
      id := StoredId(docId);
      version := dataModelVersion;
    }

    /** `AbstractMongoDocument.to_json`. */
    function ToJson(): Dict
      reads this
    {
      SystemJson(id, version)
    }

    /** `AbstractMongoDocument.extract_system_fields(json)`. */
    method ExtractSystemFields(json: Dict)
      requires Valid()
      modifies this
      ensures Valid()
      ensures (id, version) == SystemFields(old(id), old(version), json)
    {
      if "_id" in json {
        id := Text(Str(json["_id"]));
      }
      if "version" in json {
        version := json["version"];
      }
    }
  }

  /**
   * Round trip: extracting `to_json` of a document with a string or no id into any other document restores its id
   * and version; a `None` field is not written and leaves the target's value.
   */
  lemma SystemRoundTrip(id: Value, version: Value, otherId: Value, otherVersion: Value)
    requires id.Null? || id.Text?
    ensures SystemFields(otherId, otherVersion, SystemJson(id, version)) ==
      (if id.Null? then otherId else id, if version.Null? then otherVersion else version)
  {
  }
}
