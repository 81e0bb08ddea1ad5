/**
  The specification of `JsonRef::deref`: one call visits one node of the
  document, given the base URL it inherits and the references already being
  resolved on the path that led to it, and yields the rewritten node, the
  new schema cache and whether it succeeded. On failure the node is what the
  in-place rewrite had made of it when the error was raised.

  Rust's recursion is unbounded; here every level of recursion consumes one
  unit of `fuel` (siblings are visited with the same fuel), and running out
  of it is the error `DepthExceeded`.
 */
module Resolver {
  import opened Wrappers
  import opened Json
  import Pointer
  import Uri

  /** The error enum of the library, plus the two conditions the model adds. */
  datatype Error =
    | SchemaFromFile(filename: string)
    | SchemaFromUrl(url: string)
    | UrlParseError(url: string)
    | SchemaNotJson(url: string)
    | SchemaNotJsonSerde(url: string)
    | JsonPointerNotFound(reference: string, pointer: string)
    | JsonRefError
    // the source panics on a location that is neither http nor file
    | UnsupportedScheme(url: string)
    // the recursion went deeper than the fuel allows
    | DepthExceeded

  datatype Outcome = Done | Failed(error: Error)

  /** What fetching a location yields: a parsed document, or content that is not JSON. */
  datatype Fetch = Fetched(doc: Json) | NotJson

  /** The schema cache: location (a URL without fragment) to the document fetched from it. */
  type Cache = map<string, Json>

  /** The network and the file system: a location absent from the map cannot be reached. */
  type Loader = map<string, Fetch>

  datatype Step<T> = Step(value: T, cache: Cache, outcome: Outcome)

  predicate StartsWith(s: string, prefix: string)
  {
    |prefix| <= |s| && s[..|prefix|] == prefix
  }

  /** Fetching a location that is not cached: `ureq::get` for "http…", a file read for "file…". */
  function Load(loader: Loader, location: string): (r: Result<Json, Error>)
    ensures r.Ok? <==> (location in loader && loader[location].Fetched? &&
                        (StartsWith(location, "http") || StartsWith(location, "file")))
    ensures r.Ok? ==> loader[location] == Fetched(r.value)
    ensures StartsWith(location, "http") && location !in loader ==> r == Err(SchemaFromUrl(location))
    ensures StartsWith(location, "http") && location in loader && loader[location].NotJson? ==>
              r == Err(SchemaNotJson(location))
    ensures StartsWith(location, "file") && location !in loader ==> r == Err(SchemaFromFile(location))
    ensures StartsWith(location, "file") && location in loader && loader[location].NotJson? ==>
              r == Err(SchemaNotJsonSerde(location))
    ensures !StartsWith(location, "http") && !StartsWith(location, "file") ==> r == Err(UnsupportedScheme(location))
  {
    if StartsWith(location, "http") then
      if location !in loader then Err(SchemaFromUrl(location))
      else if loader[location].NotJson? then Err(SchemaNotJson(location))
      else Ok(loader[location].doc)
    else if StartsWith(location, "file") then
      if location !in loader then Err(SchemaFromFile(location))
      else if loader[location].NotJson? then Err(SchemaNotJsonSerde(location))
      else Ok(loader[location].doc)
    else Err(UnsupportedScheme(location))
  }

  /** The document at a location: a copy of the cached one, or else loaded and then cached. */
  function Retrieve(cache: Cache, loader: Loader, location: string): (r: (Cache, Result<Json, Error>))
    ensures location in cache ==> r == (cache, Ok(cache[location]))
    ensures location !in cache ==> r.1 == Load(loader, location)
    ensures location !in cache && r.1.Ok? ==> r.0 == cache[location := r.1.value]
    ensures r.1.Err? ==> r.0 == cache
  {
    if location in cache then (cache, Ok(cache[location]))
    else
      match Load(loader, location)
      case Ok(doc) => (cache[location := doc], Ok(doc))
      case Err(e) => (cache, Err(e))
  }

  /** A string `$id` replaces the base as it is; any other node keeps the inherited one. */
  function BaseOf(v: Json, id: string): string
  {
    match Field(v, "$id")
    case Some(String(s)) => s
    case _ => id
  }

  /** A reference joined against its base: the location to fetch, the full reference string and its fragment. */
  datatype Target = Target(location: string, reference: string, fragment: Option<string>)

  function Locate(base: string, reference: string): (r: Result<Target, Error>)
    ensures Uri.ParseAbsolute(base).None? ==> r == Err(UrlParseError(base))
    ensures Uri.ParseAbsolute(base).Some? && Uri.Join(Uri.ParseAbsolute(base).value, reference).None? ==>
              r == Err(UrlParseError(reference))
    ensures r.Ok? ==> Uri.ParseAbsolute(base).Some? && Uri.Join(Uri.ParseAbsolute(base).value, reference).Some?
    ensures r.Ok? ==> var t := Uri.Join(Uri.ParseAbsolute(base).value, reference).value;
              r.value.location == Uri.Recompose(Uri.WithoutFragment(t)) && r.value.fragment == t.fragment
    ensures r.Ok? ==> r.value.reference == r.value.location + Uri.FragmentText(r.value.fragment)
  {
    match Uri.ParseAbsolute(base)
    case None => Err(UrlParseError(base))
    case Some(b) =>
      match Uri.Join(b, reference)
      case None => Err(UrlParseError(reference))
      case Some(t) =>
        Uri.RecomposeWithoutFragment(t);
        Ok(Target(Uri.Recompose(Uri.WithoutFragment(t)), Uri.Recompose(t), t.fragment))
  }

  /** The part of the fetched document the fragment points at; no fragment means all of it. */
  function Select(doc: Json, fragment: Option<string>): Option<Json>
  {
    match fragment
    case None => Some(doc)
    case Some(f) => Pointer.Lookup(doc, f)
  }

  /** The resolved content replaces the node; with a reference key an object also keeps the old node under it. */
  function Substitute(referenceKey: Option<string>, content: Json, previous: Json): Json
  {
    if referenceKey.Some? && content.Object? then Object(Insert(content.members, referenceKey.value, previous))
    else content
  }

  /** Visits one node: its `$id`, its `$ref`, then its children. */
  function Resolve(key: Option<string>, loader: Loader, cache: Cache, v: Json, id: string,
                   used: seq<string>, fuel: nat): Step<Json>
    decreases fuel, 2
  {
    if fuel == 0 then Step(v, cache, Failed(DepthExceeded))
    else
      var base := BaseOf(v, id);
      match v
      case Object(ms) =>
        (match Get(ms, "$ref")
         case None => Visit(key, loader, cache, v, base, used, fuel - 1)
         case Some(reference) =>
           var stub := Object(Remove(ms, "$ref"));
           if reference.String? then ResolveRef(key, loader, cache, stub, reference.s, base, used, fuel)
           else Visit(key, loader, cache, stub, base, used, fuel - 1))
      case _ => Visit(key, loader, cache, v, base, used, fuel - 1)
  }

  /** The `$ref` of a node, already removed from it (`stub`), is joined, fetched, pointed into and substituted. */
  function ResolveRef(key: Option<string>, loader: Loader, cache: Cache, stub: Json, reference: string,
                      base: string, used: seq<string>, fuel: nat): Step<Json>
    requires fuel >= 1
    decreases fuel, 1
  {
    match Locate(base, reference)
    case Err(e) => Step(stub, cache, Failed(e))
    case Ok(t) =>
      var retrieved := Retrieve(cache, loader, t.location);
      match retrieved.1
      case Err(e) => Step(stub, retrieved.0, Failed(e))
      case Ok(doc) =>
        match Select(doc, t.fragment)
        case None => Step(stub, retrieved.0, Failed(JsonPointerNotFound(reference, t.fragment.value)))
        case Some(schema) => Expand(key, loader, retrieved.0, stub, schema, t, base, used, fuel)
  }

  /**
    The pointed-to `schema` of a reference: unless the reference is already
    being resolved on this path, it is resolved in turn (against its location,
    with the reference added to the path), then substituted, and the result's
    children are visited against the node's own base and path.
   */
  function Expand(key: Option<string>, loader: Loader, cache: Cache, stub: Json, schema: Json, t: Target,
                  base: string, used: seq<string>, fuel: nat): Step<Json>
    requires fuel >= 1
    decreases fuel, 0
  {
    if t.reference in used then Step(stub, cache, Done)
    else
      var sub := Resolve(key, loader, cache, schema, t.location, used + [t.reference], fuel - 1);
      if sub.outcome.Failed? then Step(stub, sub.cache, sub.outcome)
      else Visit(key, loader, sub.cache, Substitute(key, sub.value, stub), base, used, fuel - 1)
  }

  function ChildCount(v: Json): nat
  {
    match v
    case Array(items) => |items|
    case Object(ms) => |ms|
    case _ => 0
  }

  /** Every value of an object and every element of an array is visited with the node's base and `used`. */
  function Visit(key: Option<string>, loader: Loader, cache: Cache, v: Json, base: string,
                 used: seq<string>, fuel: nat): Step<Json>
    decreases fuel, ChildCount(v) + 3
  {
    match v
    case Object(ms) =>
      var r := ResolveMembers(key, loader, cache, ms, base, used, fuel);
      Step(Object(r.value), r.cache, r.outcome)
    case Array(items) =>
      var r := ResolveItems(key, loader, cache, items, base, used, fuel);
      Step(Array(r.value), r.cache, r.outcome)
    case _ => Step(v, cache, Done)
  }

  /** The values of an object in order, the cache threaded through; the first failure stops the walk. */
  function ResolveMembers(key: Option<string>, loader: Loader, cache: Cache, ms: Members, base: string,
                          used: seq<string>, fuel: nat): Step<Members>
    decreases fuel, |ms| + 2
  {
    if ms == [] then Step([], cache, Done)
    else
      var head := Resolve(key, loader, cache, ms[0].1, base, used, fuel);
      if head.outcome.Failed? then Step([(ms[0].0, head.value)] + ms[1..], head.cache, head.outcome)
      else
        var tail := ResolveMembers(key, loader, head.cache, ms[1..], base, used, fuel);
        Step([(ms[0].0, head.value)] + tail.value, tail.cache, tail.outcome)
  }

  /** The elements of an array in order, as for the values of an object. */
  function ResolveItems(key: Option<string>, loader: Loader, cache: Cache, items: seq<Json>, base: string,
                        used: seq<string>, fuel: nat): Step<seq<Json>>
    decreases fuel, |items| + 2
  {
    if items == [] then Step([], cache, Done)
    else
      var head := Resolve(key, loader, cache, items[0], base, used, fuel);
      if head.outcome.Failed? then Step([head.value] + items[1..], head.cache, head.outcome)
      else
        var tail := ResolveItems(key, loader, head.cache, items[1..], base, used, fuel);
        Step([head.value] + tail.value, tail.cache, tail.outcome)
  }
}
