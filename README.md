# jsonref reference resolution, modelled in Dafny

This project models the reference-resolution engine of the Rust crate
`jsonref` (`src/lib.rs`). The engine rewrites a JSON Schema document in
place. Every object that carries a `$ref` is replaced by the document part
the reference points to. That part is fetched through a schema cache, and its
own references are resolved first.

- `JsonRefs.JsonRef` is a class. It has the two fields of the Rust struct: the
  schema cache, a `map<string, Json>`, and the optional reference key. Its
  methods follow the Rust methods step by step. `Deref` is the recursive
  `deref`. `DerefRef`, `DerefTarget` and `FetchSchema` are the `$ref` branch.
  `DerefChildren`, `DerefMembers` and `DerefItems` are the loops over object
  values and array elements. `DerefValue`, `DerefUrl` and `DerefFile` seed the
  cache and start a resolution. Every method is proved to compute what a
  specification function of `Resolver` gives for the old cache.
- `Resolver` holds those specification functions. `Resolve` visits one node:
  its `$id`, then its `$ref`, then its children. `ResolveRef` and `Expand`
  are the `$ref` branch: join, fetch, pointer, cycle check, recursive
  resolution, substitution. `Visit`, `ResolveMembers` and `ResolveItems`
  visit the children. The result of a call is a `Step`: the rewritten value,
  the new cache, and `Done` or `Failed(error)`. On failure the value is the
  partly rewritten node, as the in-place rewrite leaves it.
- `Json` is the document type. An object is an association list, and lookups
  take the first entry with a key. `Pointer` is JSON Pointer as
  `serde_json::Value::pointer` evaluates it (RFC 6901, section 4). `Uri` is
  the reference join of RFC 3986: the decomposition of appendix B and the
  transform of section 5.2.2.
- `ResolverProperties`, `CacheProperties` and `ReferenceProperties` prove what
  resolution guarantees. `Examples` and `MultipleRecursion` prove the
  library's documented examples and unit tests.

Recursion in Rust is unbounded. In the model each level of recursion
consumes one unit of `fuel` (siblings share the same fuel, so it bounds the
depth, not the number of nodes), and running out of fuel is the error
`DepthExceeded`.
This stands for a stack overflow. With this, `UnrollingNeverEnds` proves a
fact about the code as written. The document `{"$ref": "#", "b": {"$ref":
"#"}}` never finishes resolving, whatever the fuel. The inner copy of the
root is cut by the cycle check. But after substitution the cut copy's child
`b` is visited with the outer, empty list of references in progress, so it
is expanded again, and so on without end. This goes against the crate's
own note that with recursive references "only the first recursion will
happen" (`src/lib.rs:33-34`): that holds for the documented examples, but
not for this document.

Three behaviours of the code that the model keeps as they are:

- The code first joins, fetches and caches, and applies the pointer; only
  then does it check for a cycle (`src/lib.rs:235-281`). The model keeps
  that order, so a missing pointer is an error even on a path where the
  reference is already in progress (`PointerMissing`).
- A location that is neither http nor file makes the code panic
  (`src/lib.rs:262-264`). The model returns the error `UnsupportedScheme`
  instead (see "Left out").
- The entry points insert the seed document with `HashMap::insert`, which
  overwrites an earlier entry (`src/lib.rs:132`, `166`, `197`). Only `deref`
  itself inserts only when the key is absent.

## Model

| member | source | states |
|---|---|---|
| JsonRefs.JsonRef.constructor | src/lib.rs:84-89 | a new engine has an empty schema cache and no reference key |
| JsonRefs.JsonRef.SetReferenceKey | src/lib.rs:119-121 | the reference key becomes the given string; the cache is unchanged |
| JsonRefs.JsonRef.DerefValue | src/lib.rs:125-137 | without a working directory the call fails with `JSONRefError` and changes nothing; otherwise the value is cached under `file://<cwd>/anon.json`, overwriting, and the result and new cache are those of `Resolve` from that base with no reference in progress |
| JsonRefs.JsonRef.DerefUrl | src/lib.rs:153-169 | a URL that is not http(s) or is unreachable gives `SchemaFromUrl` and content that is not JSON gives `SchemaNotJson`, both with the cache unchanged; otherwise the document is cached under the URL and resolved against it |
| JsonRefs.JsonRef.DerefFile | src/lib.rs:183-200 | the three failures (`SchemaFromFile`, `JSONRefError` from canonicalisation, `SchemaNotJsonSerde`) come in the code's order and leave the cache unchanged; otherwise the document is cached under `file://<absolute path>` and resolved |
| JsonRefs.JsonRef.Deref | src/lib.rs:202-308 | the rewritten node, the new cache and the outcome are exactly what `Resolver.Resolve` gives for the old cache; the reference key is unchanged |
| JsonRefs.JsonRef.DerefRef | src/lib.rs:217-293 | the `$ref` branch computes `Resolver.ResolveRef`: a join error, a fetch error or a missing pointer fails with the stub as the node |
| JsonRefs.JsonRef.DerefTarget | src/lib.rs:279-306 | the cycle check, the recursive resolution with the reference appended, the substitution and the visit of the children compute `Resolver.Expand` |
| JsonRefs.JsonRef.FetchSchema | src/lib.rs:235-271 | the document is a copy of the cached one; on a miss it is loaded and then cached only under an absent key; the cache and result are those of `Resolver.Retrieve` |
| JsonRefs.JsonRef.DerefChildren | src/lib.rs:298-306 | an object has its values visited, an array its elements, a scalar nothing, as `Resolver.Visit` specifies |
| JsonRefs.JsonRef.DerefMembers | src/lib.rs:298-301 | the loop over an object's values visits them in order with the node's base and references in progress, and stops at the first failure, as `Resolver.ResolveMembers` specifies |
| JsonRefs.JsonRef.DerefItems | src/lib.rs:302-305 | the loop over an array's elements does the same, as `Resolver.ResolveItems` specifies |
| JsonRefs.MembersStep | src/lib.rs:299-300 | one turn of the loop over object values: a failing member ends the walk with the rest untouched; a succeeding one continues with the new cache |
| JsonRefs.ItemsStep | src/lib.rs:303-304 | one turn of the loop over array elements, with the same two cases |
| Resolver.Load | src/lib.rs:238-264 | a location is loaded exactly when the loader has a JSON document for it and it starts with "http" or "file"; the result is that document; an unreachable http location is `SchemaFromUrl` and non-JSON content there `SchemaNotJson`; an unreachable file is `SchemaFromFile` and non-JSON content there `SchemaNotJsonSerde`; any other scheme is `UnsupportedScheme` |
| Resolver.Retrieve | src/lib.rs:235-271 | a cached location yields its cached document and leaves the cache as it is; a miss yields the loader's result and, on success, caches it under that location; a failure leaves the cache unchanged |
| Resolver.Locate | src/lib.rs:218-233 | a base that does not parse as an absolute URL is `UrlParseError(base)`; a reference that does not join against it is `UrlParseError(reference)`; otherwise the location is the joined URL without its fragment, the fragment is the joined URL's, and the reference string is the location followed by the fragment text |
| Json.Get | src/lib.rs:209 | a key has a value exactly when it is among the object's keys, and the pair is an entry of the object |
| Json.Field | src/lib.rs:208-209 | only an object that has the key has a field, and the field is a value stored under that key |
| Json.Remove | src/lib.rs:216 | the key is gone, every other key keeps its value, and no entry is made up |
| Json.Insert | src/lib.rs:291 | the key maps to the new value and every other key keeps its value |
| Pointer.Lookup | src/lib.rs:274-278 | the empty pointer selects the whole document; a non-empty pointer without a leading '/' selects nothing |
| Pointer.LookupEncode | src/lib.rs:275 | a pointer built from reference tokens selects exactly what walking those tokens selects, so escaping '~' and '/' is undone |
| Pointer.UnescapeEscape | src/lib.rs:275 | unescaping "~1" then "~0" inverts the escaping of RFC 6901, for every token |
| Pointer.ParseIndexDecimal | src/lib.rs:275 | every array index written in canonical decimal is read back as itself |
| Pointer.SplitJoinSlash | src/lib.rs:275 | splitting at '/' inverts joining with '/' parts that hold no '/' |
| Uri.RecomposeParse | src/lib.rs:218-233 | decomposing a reference and recomposing it gives the same string |
| Uri.JoinFragmentOnly | src/lib.rs:223-229 | a fragment-only reference keeps the base and replaces only its fragment |
| Uri.JoinAbsolute | src/lib.rs:223-229 | a reference with a scheme replaces the base |
| Uri.JoinRelative | src/lib.rs:223-229 | any other reference fails exactly against a base with an opaque path, and otherwise keeps the base's scheme |
| ResolverProperties.NoRefsUnchanged | src/lib.rs:298-307 | a value with no `$ref` anywhere comes back unchanged, with the cache unchanged and success, for any base, path and reference key |
| ResolverProperties.VisitKeepsKeys | src/lib.rs:298-301 | visiting the children keeps a value's kind and an object's keys |
| ResolverProperties.ResolvedTopRefFree | src/lib.rs:215-293 | a node that resolves without error has no `$ref` key when the reference key is not `$ref`, whether its `$ref` was followed, cut, or not a string |
| ResolverProperties.ResolvedIsRefFree | src/lib.rs:202-308 | a top-level resolution that succeeds leaves no `$ref` anywhere in the document, when the reference key is not `$ref` |
| CacheProperties.RetrieveExtends | src/lib.rs:268-271 | fetching never overwrites a cached entry, and adds only documents the loader supplied |
| CacheProperties.ResolveExtends | src/lib.rs:235-271 | however a resolution ends, the cache only grows: old entries keep their documents, and new ones are what the loader supplied |
| ReferenceProperties.SubstituteShape | src/lib.rs:287-293 | without a reference key, or with non-object content, the node becomes exactly the content; otherwise it is the content's members plus the key holding the node minus its `$ref` |
| ReferenceProperties.LocateFragment | src/lib.rs:218-233 | a fragment-only reference against an absolute base without fragment locates that base, with the reference string base + "#" + fragment |
| ReferenceProperties.IdOverridesBase | src/lib.rs:208-213 | a string `$id` replaces the inherited base as it is: the result does not depend on the inherited base |
| ReferenceProperties.NonStringRefDropped | src/lib.rs:216-217 | a `$ref` that is not a string is removed without being followed; the node keeps all its other keys and its children are visited |
| ReferenceProperties.ReferenceBranch | src/lib.rs:215-217 | a string `$ref` is removed from the node before it is joined against the node's own base |
| ReferenceProperties.ReferenceFound | src/lib.rs:218-278 | once joined, fetched and pointed into, the reference's fate is its expansion over the cache the fetch left |
| ReferenceProperties.ReferenceExpands | src/lib.rs:214-278 | a node with a string `$ref` whose location is cached and whose fragment selects a value goes on to the expansion of that value, over the unchanged cache |
| ReferenceProperties.ReferenceFetches | src/lib.rs:234-270 | when the location is not cached, the loaded document is inserted in the cache under it before the expansion |
| ReferenceProperties.ReferenceCut | src/lib.rs:279-281 | such a node whose full reference is already in progress becomes the node minus its `$ref`, with the cache unchanged |
| ReferenceProperties.ExpandResolves | src/lib.rs:283-306 | only the resolution of the fetched content gets the reference appended to the references in progress; the substituted node's children are visited with the original list |
| ReferenceProperties.HeadFailure | src/lib.rs:299-301 | a failing child makes the whole visit fail with the same error |
| ReferenceProperties.CycleCut | src/lib.rs:279-281 | a reference already in progress leaves the node as the object minus `$ref`, succeeds, and visits no child; the fetch and cache update still happen |
| ReferenceProperties.PointerMissing | src/lib.rs:274-278 | a fragment that selects nothing is a `JsonPointerNotFound` error, whether or not the reference is in progress |
| ReferenceProperties.UnrollingNeverEnds | src/lib.rs:279-306 | `{"$ref": "#", "b": {"$ref": "#"}}` exhausts any amount of fuel, contrary to the note at src/lib.rs:33-34 that only the first recursion happens |
| Examples.AnonUrlIsBase | src/lib.rs:126-131 | the anonymous file URL of `deref_value` is an absolute URL without fragment when the directory name holds no '#' |
| Examples.SimpleExample | src/lib.rs:13-31 | the crate's example: `prop2` with `$ref` "#/properties/prop1" becomes `{"title": "name"}` and the cache is unchanged |
| Examples.ReferenceKeyExample | src/lib.rs:98-116 | with key "__reference__", `{"$ref": "#/properties/prop1", "title": "old_title"}` becomes `{"title": "name", "__reference__": {"title": "old_title"}}` |
| Examples.NoRefsExample | src/lib.rs:316-326 | `{"properties": {"prop1": {"title": "proptitle"}}}` is left as it is |
| Examples.RecursionExample | src/lib.rs:329-349 | `{"properties": {"prop1": {"$ref": "#"}}}` becomes `{"properties": {"prop1": {"properties": {"prop1": {}}}}}` |
| Examples.UrlExample | src/lib.rs:352-370 | a `$ref` to an absolute http URL is fetched, cached under that URL, and substituted with the old title kept under the reference key |
| MultipleRecursion.MultipleRecursionExample | src/test_jsonref.rs:40-79 | references "#" and "#/properties/prop0" into the same recursive document each unroll exactly once along their own path |

## Left out

- Network and file access, JSON parsing, the working directory and path canonicalisation are not modelled. A `Loader` map stands for the network and the file system: an absent location is unreachable, and `NotJson` is content that does not parse. The entry points take the working directory, the file's parsed contents and its canonical path as parameters.
- Resolver.Load: a location that is neither http nor file makes the code panic (`src/lib.rs:262-264`); the model returns `Err(UnsupportedScheme(location))` instead, because a panic cannot be expressed as a value.
- Resolver.Load: a `file` location is looked up in the loader by its full URL string, not by the path `Url::path()` extracts from it.
- Uri.Join: the `url` crate's WHATWG normalisation is not modelled: no removal of dot segments, no percent-encoding, no case folding, no default ports or special-scheme rules. Only two of its failures are kept: a base without a scheme, and a relative reference against a base with an opaque path.
- Numbers are integers and stand for any JSON number. Floating point is not modelled.
- Object key order is not modelled. An object is an association list; `Remove` drops the key and `Insert` appends. serde_json's `Map` may place an inserted key elsewhere.
- Error messages (`derive_more::Display`) are not modelled. Errors carry only the strings they are built from.
- JsonRefs.JsonRef.Deref: Rust's unbounded recursion is bounded by `fuel`. Running out of fuel is the error `DepthExceeded`, which stands for a stack overflow.
- Examples.UrlExample: the fetched document is a parameter of the loader, not the content of the gist URL the test names. The tests `nested_with_ref_from_url` and `nested_ref_from_local_file` depend on remote and fixture files that are not part of this model.
