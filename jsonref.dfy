/**
  The `JsonRef` engine: a schema cache that the dereferencing calls extend,
  and the optional reference key. `Deref` rewrites a value the way the
  source's recursive `deref` does, step by step, and is proved to compute
  what `Resolver.Resolve` specifies.
 */
module JsonRefs {
  import opened Wrappers
  import opened Json
  import Pointer
  import Uri
  import opened Resolver

  /** The base that `deref_value` gives a document: an `anon.json` in the working directory. */
  function AnonUrl(cwd: string): string
  {
    "file://" + cwd + "/anon.json"
  }

  /** What a top-level call hands back: the resolved value, or the error. */
  function AsResult(s: Step<Json>): Result<Json, Error>
  {
    if s.outcome.Done? then Ok(s.value) else Err(s.outcome.error)
  }

  /**
    One turn of the loop over an object's values: the walk from member `i`
    on is that member, then (when it succeeds) the walk from `i + 1` on.
    `whole` is what the walk over all members comes to, `prefix` the members
    already done.
   */
  lemma MembersStep(key: Option<string>, loader: Loader, cache: Cache, ms: Members, i: nat, id: string,
                    used: seq<string>, fuel: nat, prefix: Members, whole: Step<Members>,
                    child: Json, cache1: Cache, outcome1: Outcome)
    requires i < |ms|
    requires var rest := ResolveMembers(key, loader, cache, ms[i..], id, used, fuel);
      whole == Step(prefix + rest.value, rest.cache, rest.outcome)
    requires Resolve(key, loader, cache, ms[i].1, id, used, fuel) == Step(child, cache1, outcome1)
    ensures outcome1.Failed? ==> whole == Step(prefix + [(ms[i].0, child)] + ms[i + 1..], cache1, outcome1)
    ensures outcome1.Done? ==>
      var rest := ResolveMembers(key, loader, cache1, ms[i + 1..], id, used, fuel);
      whole == Step(prefix + [(ms[i].0, child)] + rest.value, rest.cache, rest.outcome)
  {
    assert ms[i..][0] == ms[i] && ms[i..][1..] == ms[i + 1..];
    Regroup(prefix, [(ms[i].0, child)], ms[i + 1..]);
    Regroup(prefix, [(ms[i].0, child)], ResolveMembers(key, loader, cache1, ms[i + 1..], id, used, fuel).value);
  }

  /** One turn of the loop over an array's elements, as for the values of an object. */
  lemma ItemsStep(key: Option<string>, loader: Loader, cache: Cache, items: seq<Json>, i: nat, id: string,
                  used: seq<string>, fuel: nat, prefix: seq<Json>, whole: Step<seq<Json>>,
                  child: Json, cache1: Cache, outcome1: Outcome)
    requires i < |items|
    requires var rest := ResolveItems(key, loader, cache, items[i..], id, used, fuel);
      whole == Step(prefix + rest.value, rest.cache, rest.outcome)
    requires Resolve(key, loader, cache, items[i], id, used, fuel) == Step(child, cache1, outcome1)
    ensures outcome1.Failed? ==> whole == Step(prefix + [child] + items[i + 1..], cache1, outcome1)
    ensures outcome1.Done? ==>
      var rest := ResolveItems(key, loader, cache1, items[i + 1..], id, used, fuel);
      whole == Step(prefix + [child] + rest.value, rest.cache, rest.outcome)
  {
    assert items[i..][0] == items[i] && items[i..][1..] == items[i + 1..];
    Regroup(prefix, [child], items[i + 1..]);
    Regroup(prefix, [child], ResolveItems(key, loader, cache1, items[i + 1..], id, used, fuel).value);
  }

  class JsonRef {
    var schemaCache: Cache
    var referenceKey: Option<string>

    /** `JsonRef::new`: an empty cache and no reference key. */
    constructor ()
      ensures schemaCache == map[] && referenceKey == None
    {
      schemaCache := map[];
      referenceKey := None;
    }

    /** `set_reference_key`: resolved nodes keep what the `$ref` replaced under `key`. */
    method SetReferenceKey(key: string)
      modifies this
      ensures referenceKey == Some(key)
      ensures schemaCache == old(schemaCache)
    {
      referenceKey := Some(key);
    }

    /**
      `deref_value`: the value is cached under the anonymous file URL of the
      working directory `cwd` (None when it cannot be read), overwriting any
      earlier entry there, and is then resolved against that URL.
     */
    method DerefValue(value: Json, cwd: Option<string>, loader: Loader, fuel: nat)
      returns (result: Json, outcome: Outcome)
      modifies this
      ensures referenceKey == old(referenceKey)
      ensures cwd.None? ==> result == value && outcome == Failed(JsonRefError) && schemaCache == old(schemaCache)
      ensures cwd.Some? ==>
        var url := AnonUrl(cwd.value);
        Resolve(referenceKey, loader, old(schemaCache)[url := value], value, url, [], fuel)
          == Step(result, schemaCache, outcome)
    {
      if cwd.None? {
        return value, Failed(JsonRefError);
      }
      var anonFileUrl := AnonUrl(cwd.value);
      schemaCache := schemaCache[anonFileUrl := value];
      result, outcome := Deref(value, anonFileUrl, [], loader, fuel);
    }

    /**
      `deref_url`: the document fetched from `url` is cached under it, overwriting, and
      resolved against it. `ureq` only fetches http(s) URLs: any other URL is unreachable.
     */
    method DerefUrl(url: string, loader: Loader, fuel: nat) returns (result: Result<Json, Error>)
      modifies this
      ensures referenceKey == old(referenceKey)
      ensures (!StartsWith(url, "http") || url !in loader) ==>
                result == Err(SchemaFromUrl(url)) && schemaCache == old(schemaCache)
      ensures StartsWith(url, "http") && url in loader && loader[url].NotJson? ==>
                result == Err(SchemaNotJson(url)) && schemaCache == old(schemaCache)
      ensures StartsWith(url, "http") && url in loader && loader[url].Fetched? ==>
        var doc := loader[url].doc;
        var s := Resolve(referenceKey, loader, old(schemaCache)[url := doc], doc, url, [], fuel);
        result == AsResult(s) && schemaCache == s.cache
    {
      if !StartsWith(url, "http") || url !in loader {
        return Err(SchemaFromUrl(url));
      }
      if loader[url].NotJson? {
        return Err(SchemaNotJson(url));
      }
      var value := loader[url].doc;
      schemaCache := schemaCache[url := value];
      var resolved, outcome := Deref(value, url, [], loader, fuel);
      result := if outcome.Done? then Ok(resolved) else Err(outcome.error);
    }

    /**
      `deref_file`: `contents` is what opening and parsing `filePath` gave (None when
      it cannot be opened), `absolutePath` its canonical form (None when that
      fails). The document is cached under its file URL, overwriting, and resolved.
     */
    method DerefFile(filePath: string, contents: Option<Fetch>, absolutePath: Option<string>,
                     loader: Loader, fuel: nat) returns (result: Result<Json, Error>)
      modifies this
      ensures referenceKey == old(referenceKey)
      ensures contents.None? ==> result == Err(SchemaFromFile(filePath)) && schemaCache == old(schemaCache)
      ensures contents.Some? && absolutePath.None? ==>
                result == Err(JsonRefError) && schemaCache == old(schemaCache)
      ensures contents.Some? && absolutePath.Some? && contents.value.NotJson? ==>
                result == Err(SchemaNotJsonSerde("file://" + absolutePath.value)) && schemaCache == old(schemaCache)
      ensures contents.Some? && absolutePath.Some? && contents.value.Fetched? ==>
        var url := "file://" + absolutePath.value;
        var doc := contents.value.doc;
        var s := Resolve(referenceKey, loader, old(schemaCache)[url := doc], doc, url, [], fuel);
        result == AsResult(s) && schemaCache == s.cache
    {
      if contents.None? {
        return Err(SchemaFromFile(filePath));
      }
      if absolutePath.None? {
        return Err(JsonRefError);
      }
      var url := "file://" + absolutePath.value;
      if contents.value.NotJson? {
        return Err(SchemaNotJsonSerde(url));
      }
      var value := contents.value.doc;
      schemaCache := schemaCache[url := value];
      var resolved, outcome := Deref(value, url, [], loader, fuel);
      result := if outcome.Done? then Ok(resolved) else Err(outcome.error);
    }

    /**
      `deref`: rewrites one node given the base `id` it inherits and the
      references `usedRefs` being resolved on the path to it. Returns the
      rewritten node, which on failure is the partly rewritten one.
     */
    method Deref(value: Json, id: string, usedRefs: seq<string>, loader: Loader, fuel: nat)
      returns (result: Json, outcome: Outcome)
      modifies this
      decreases fuel, 2
      ensures referenceKey == old(referenceKey)
      ensures Resolve(referenceKey, loader, old(schemaCache), value, id, usedRefs, fuel)
                == Step(result, schemaCache, outcome)
    {
      if fuel == 0 {
        return value, Failed(DepthExceeded);
      }
      var newId := id;
      match Field(value, "$id") {
        case Some(String(s)) => newId := s;
        case _ =>
      }
      assert newId == BaseOf(value, id);
      result := value;
      if value.Object? {
        var refValue := Get(value.members, "$ref");
        if refValue.Some? {
          result := Object(Remove(value.members, "$ref"));
          if refValue.value.String? {
            result, outcome := DerefRef(result, refValue.value.s, newId, usedRefs, loader, fuel);
            return;
          }
        }
      }
      result, outcome := DerefChildren(result, newId, usedRefs, loader, fuel - 1);
    }

    /**
      The `$ref` branch of `deref`: `stub` is the node with its `$ref` removed,
      `reference` the string that was there, `id` the node's base.
     */
    method DerefRef(stub: Json, reference: string, id: string, usedRefs: seq<string>, loader: Loader, fuel: nat)
      returns (result: Json, outcome: Outcome)
      requires fuel >= 1
      modifies this
      decreases fuel, 1
      ensures referenceKey == old(referenceKey)
      ensures ResolveRef(referenceKey, loader, old(schemaCache), stub, reference, id, usedRefs, fuel)
                == Step(result, schemaCache, outcome)
    {
      result := stub;
      var located := Locate(id, reference);
      if located.Err? {
        assert ResolveRef(referenceKey, loader, old(schemaCache), stub, reference, id, usedRefs, fuel) == Step(result, schemaCache, Failed(located.error));
        return result, Failed(located.error);
      }
      var target := located.value;
      ghost var cache0 := schemaCache;
      var retrieved := FetchSchema(target.location, loader);
      assert Retrieve(cache0, loader, target.location) == (schemaCache, retrieved);
      if retrieved.Err? {
        assert ResolveRef(referenceKey, loader, old(schemaCache), stub, reference, id, usedRefs, fuel) == Step(result, schemaCache, Failed(retrieved.error));
        return result, Failed(retrieved.error);
      }
      var schema := retrieved.value;
      if target.fragment.Some? {
        var pointed := Pointer.Lookup(schema, target.fragment.value);
        if pointed.None? {
          assert ResolveRef(referenceKey, loader, old(schemaCache), stub, reference, id, usedRefs, fuel) == Step(result, schemaCache, Failed(JsonPointerNotFound(reference, target.fragment.value)));
          return result, Failed(JsonPointerNotFound(reference, target.fragment.value));
        }
        schema := pointed.value;
      }
      assert Select(retrieved.value, target.fragment) == Some(schema);
      result, outcome := DerefTarget(stub, schema, target, id, usedRefs, loader, fuel);
    }

    /** The tail of the `$ref` branch: the cycle check, the recursive `deref` and the substitution. */
    method DerefTarget(stub: Json, schema: Json, target: Target, id: string, usedRefs: seq<string>,
                       loader: Loader, fuel: nat) returns (result: Json, outcome: Outcome)
      requires fuel >= 1
      modifies this
      decreases fuel, 0
      ensures referenceKey == old(referenceKey)
      ensures Expand(referenceKey, loader, old(schemaCache), stub, schema, target, id, usedRefs, fuel)
                == Step(result, schemaCache, outcome)
    {
      if target.reference in usedRefs {
        return stub, Done;
      }
      var newUsedRefs := usedRefs + [target.reference];
      var less := fuel - 1;
      var resolved, resolvedOutcome := Deref(schema, target.location, newUsedRefs, loader, less);
      if resolvedOutcome.Failed? {
        return stub, resolvedOutcome;
      }
      result := Substitute(referenceKey, resolved, stub);
      result, outcome := DerefChildren(result, id, usedRefs, loader, less);
    }

    /**
      The schema behind a location: a copy of the cached document, or else the
      fetched one, which is then cached (only when the location is absent).
     */
    method FetchSchema(location: string, loader: Loader) returns (schema: Result<Json, Error>)
      modifies this
      ensures referenceKey == old(referenceKey)
      ensures Retrieve(old(schemaCache), loader, location) == (schemaCache, schema)
    {
      if location in schemaCache {
        schema := Ok(schemaCache[location]);
      } else {
        schema := Load(loader, location);
        if schema.Err? {
          return;
        }
      }
      if location !in schemaCache {
        schemaCache := schemaCache[location := schema.value];
      }
    }

    /** The tail of `deref`: every object value, or every array element, is dereferenced in turn. */
    method DerefChildren(value: Json, id: string, usedRefs: seq<string>, loader: Loader, fuel: nat)
      returns (result: Json, outcome: Outcome)
      modifies this
      decreases fuel, ChildCount(value) + 3
      ensures referenceKey == old(referenceKey)
      ensures Visit(referenceKey, loader, old(schemaCache), value, id, usedRefs, fuel)
                == Step(result, schemaCache, outcome)
    {
      match value {
        case Object(ms) =>
          var done;
          done, outcome := DerefMembers(ms, id, usedRefs, loader, fuel);
          result := Object(done);
        case Array(items) =>
          var done;
          done, outcome := DerefItems(items, id, usedRefs, loader, fuel);
          result := Array(done);
        case _ =>
          result, outcome := value, Done;
      }
    }

    /** `for obj_value in obj.values_mut()`. */
    method DerefMembers(ms: Members, id: string, usedRefs: seq<string>, loader: Loader, fuel: nat)
      returns (result: Members, outcome: Outcome)
      modifies this
      decreases fuel, |ms| + 2
      ensures referenceKey == old(referenceKey)
      ensures ResolveMembers(referenceKey, loader, old(schemaCache), ms, id, usedRefs, fuel)
                == Step(result, schemaCache, outcome)
    {
      result := [];
      ghost var whole := ResolveMembers(referenceKey, loader, schemaCache, ms, id, usedRefs, fuel);
      var i := 0;
      assert ms[i..] == ms && result + whole.value == whole.value;
      while i < |ms|
        invariant 0 <= i <= |ms|
        invariant referenceKey == old(referenceKey)
        invariant
          var rest := ResolveMembers(referenceKey, loader, schemaCache, ms[i..], id, usedRefs, fuel);
          whole == Step(result + rest.value, rest.cache, rest.outcome)
      {
        ghost var before := schemaCache;
        var child, childOutcome := Deref(ms[i].1, id, usedRefs, loader, fuel);
        MembersStep(referenceKey, loader, before, ms, i, id, usedRefs, fuel, result, whole,
                    child, schemaCache, childOutcome);
        result := result + [(ms[i].0, child)];
        if childOutcome.Failed? {
          return result + ms[i + 1..], childOutcome;
        }
        i := i + 1;
      }
      assert ms[i..] == [] && result + [] == result;
      outcome := Done;
    }

    /** `for list_value in list.iter_mut()`. */
    method DerefItems(items: seq<Json>, id: string, usedRefs: seq<string>, loader: Loader, fuel: nat)
      returns (result: seq<Json>, outcome: Outcome)
      modifies this
      decreases fuel, |items| + 2
      ensures referenceKey == old(referenceKey)
      ensures ResolveItems(referenceKey, loader, old(schemaCache), items, id, usedRefs, fuel)
                == Step(result, schemaCache, outcome)
    {
      result := [];
      ghost var whole := ResolveItems(referenceKey, loader, schemaCache, items, id, usedRefs, fuel);
      var i := 0;
      assert items[i..] == items && result + whole.value == whole.value;
      while i < |items|
        invariant 0 <= i <= |items|
        invariant referenceKey == old(referenceKey)
        invariant
          var rest := ResolveItems(referenceKey, loader, schemaCache, items[i..], id, usedRefs, fuel);
          whole == Step(result + rest.value, rest.cache, rest.outcome)
      {
        ghost var before := schemaCache;
        var child, childOutcome := Deref(items[i], id, usedRefs, loader, fuel);
        ItemsStep(referenceKey, loader, before, items, i, id, usedRefs, fuel, result, whole,
                  child, schemaCache, childOutcome);
        result := result + [child];
        if childOutcome.Failed? {
          return result + items[i + 1..], childOutcome;
        }
        i := i + 1;
      }
      assert items[i..] == [] && result + [] == result;
      outcome := Done;
    }
  }
}
