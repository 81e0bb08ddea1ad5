/**
  The unit test `json_with_multiple_recursion`: two references into the same
  self-referential document, one to the whole of it ("#"), one to a member
  that is itself that reference ("#/properties/prop0"). Each is unrolled once
  along its own path: the references in progress are extended only for the
  resolution of the fetched content, never for the siblings of a node.
 */
module MultipleRecursion {
  import opened Wrappers
  import opened Json
  import opened Resolver
  import ReferenceProperties
  import Examples

  /** `{"properties": {"prop0": x0, "prop1": x1, "prop2": x2}}` */
  function Three(x0: Json, x1: Json, x2: Json): Json
  {
    Object([("properties", Object([("prop0", x0), ("prop1", x1), ("prop2", x2)]))])
  }

  /** The input: `{"properties": {"prop0": {"$ref": "#"}, "prop1": {"$ref": r0}, "prop2": 5}}` */
  function Input(r0: string): Json
  {
    Three(Examples.Ref("#"), Examples.Ref(r0), Number(5))
  }

  /** One unrolling: `{"properties": {"prop0": {}, "prop1": {}, "prop2": 5}}` */
  function Unrolled(): Json
  {
    Three(Object([]), Object([]), Number(5))
  }

  /** The expected output: both references replaced by one unrolling. */
  function Expected(): Json
  {
    Three(Unrolled(), Unrolled(), Number(5))
  }

  /** A number is left as it is. */
  lemma NumberUnchanged(key: Option<string>, loader: Loader, cache: Cache, n: int, id: string, used: seq<string>,
                        fuel: nat)
    requires fuel >= 1
    ensures Resolve(key, loader, cache, Number(n), id, used, fuel) == Step(Number(n), cache, Done)
  {
  }

  /** `{}` visits to itself. */
  lemma EmptyVisit(key: Option<string>, loader: Loader, cache: Cache, id: string, used: seq<string>, fuel: nat)
    ensures Visit(key, loader, cache, Object([]), id, used, fuel) == Step(Object([]), cache, Done)
  {
    assert ResolveMembers(key, loader, cache, [], id, used, fuel) == Step([], cache, Done);
  }

  /** The values of `[(k, x)] + rest`: the head's, then the rest's from the cache the head left. */
  lemma MembersCons(key: Option<string>, loader: Loader, cache: Cache, k: string, x: Json, rest: Members,
                    base: string, used: seq<string>, fuel: nat, y: Json, c1: Cache, ys: Members, c2: Cache)
    requires Resolve(key, loader, cache, x, base, used, fuel) == Step(y, c1, Done)
    requires ResolveMembers(key, loader, c1, rest, base, used, fuel) == Step(ys, c2, Done)
    ensures ResolveMembers(key, loader, cache, [(k, x)] + rest, base, used, fuel) == Step([(k, y)] + ys, c2, Done)
  {
    assert ([(k, x)] + rest)[1..] == rest;
  }

  /** The visit of a three-member object whose values all succeed, the cache threaded through. */
  lemma ThreeMembers(key: Option<string>, loader: Loader, cache: Cache, k0: string, x0: Json, k1: string, x1: Json,
                     k2: string, x2: Json, base: string, used: seq<string>, fuel: nat,
                     y0: Json, y1: Json, y2: Json, c1: Cache, c2: Cache, c3: Cache)
    requires Resolve(key, loader, cache, x0, base, used, fuel) == Step(y0, c1, Done)
    requires Resolve(key, loader, c1, x1, base, used, fuel) == Step(y1, c2, Done)
    requires Resolve(key, loader, c2, x2, base, used, fuel) == Step(y2, c3, Done)
    ensures Visit(key, loader, cache, Object([(k0, x0), (k1, x1), (k2, x2)]), base, used, fuel)
         == Step(Object([(k0, y0), (k1, y1), (k2, y2)]), c3, Done)
  {
    assert ResolveMembers(key, loader, c3, [], base, used, fuel) == Step([], c3, Done);
    MembersCons(key, loader, c2, k2, x2, [], base, used, fuel, y2, c3, [], c3);
    assert [(k2, x2)] + [] == [(k2, x2)] && [(k2, y2)] + [] == [(k2, y2)];
    MembersCons(key, loader, c1, k1, x1, [(k2, x2)], base, used, fuel, y1, c2, [(k2, y2)], c3);
    MembersCons(key, loader, cache, k0, x0, [(k1, x1)] + [(k2, x2)], base, used, fuel, y0, c1,
                [(k1, y1)] + [(k2, y2)], c3);
    assert [(k0, x0)] + ([(k1, x1)] + [(k2, x2)]) == [(k0, x0), (k1, x1), (k2, x2)];
    assert [(k0, y0)] + ([(k1, y1)] + [(k2, y2)]) == [(k0, y0), (k1, y1), (k2, y2)];
  }

  /** Resolving `Three(x0, x1, x2)` resolves its three values, two levels down. */
  lemma ThreeResolves(key: Option<string>, loader: Loader, cache: Cache, x0: Json, x1: Json, x2: Json, id: string,
                      used: seq<string>, fuel: nat, f1: nat, f2: nat, y0: Json, y1: Json, y2: Json,
                      c1: Cache, c2: Cache, c3: Cache)
    requires fuel == f1 + 1 && f1 == f2 + 1
    requires Resolve(key, loader, cache, x0, id, used, f2) == Step(y0, c1, Done)
    requires Resolve(key, loader, c1, x1, id, used, f2) == Step(y1, c2, Done)
    requires Resolve(key, loader, c2, x2, id, used, f2) == Step(y2, c3, Done)
    ensures Visit(key, loader, cache, Three(x0, x1, x2), id, used, f1) == Step(Three(y0, y1, y2), c3, Done)
    ensures Resolve(key, loader, cache, Three(x0, x1, x2), id, used, fuel) == Step(Three(y0, y1, y2), c3, Done)
  {
    var inner := Object([("prop0", x0), ("prop1", x1), ("prop2", x2)]);
    ThreeMembers(key, loader, cache, "prop0", x0, "prop1", x1, "prop2", x2, id, used, f2, y0, y1, y2, c1, c2, c3);
    Examples.PlainNode(key, loader, cache, inner.members, id, used, f1, f2);
    Examples.OneMember(key, loader, cache, "properties", inner, id, used, f1);
    Examples.PlainNode(key, loader, cache, Three(x0, x1, x2).members, id, used, fuel, f1);
  }

  /** The test's document, cached at its base `u`; `r0` is "#/properties/prop0". */
  predicate Setting(cache: Cache, u: string, r0: string, p0: string)
  {
    Examples.Base(u) && p0 == "/properties/prop0" && r0 == "#" + p0 && u in cache && cache[u] == Input(r0)
  }

  /** Where the two references lead. */
  lemma SettingFacts(cache: Cache, u: string, r0: string, p0: string)
    requires Setting(cache, u, r0, p0)
    ensures Locate(u, "#") == Ok(Target(u, u + "#", Some("")))
    ensures Locate(u, r0) == Ok(Target(u, u + r0, Some(p0)))
    ensures Select(cache[u], Some("")) == Some(Input(r0))
    ensures Select(cache[u], Some(p0)) == Some(Examples.Ref("#"))
    ensures u + "#" != u + r0
  {
    Examples.LocateHash(u, "#", "");
    LocateProp0(u, r0, p0);
    Prop0Pointer(r0, "properties", "prop0", p0);
  }

  lemma LocateProp0(u: string, r0: string, p0: string)
    requires Examples.Base(u) && p0 == "/properties/prop0" && r0 == "#" + p0
    ensures Locate(u, r0) == Ok(Target(u, u + r0, Some(p0)))
    ensures u + "#" != u + r0
  {
    Examples.LocateHash(u, r0, p0);
    assert |u + "#"| != |u + r0|;
  }

  /** "/properties/prop0" selects `{"$ref": "#"}` in the test's document. */
  lemma Prop0Pointer(r0: string, a: string, b: string, p0: string)
    requires a == "properties" && b == "prop0" && p0 == "/properties/prop0"
    ensures Select(Input(r0), Some(p0)) == Some(Examples.Ref("#"))
  {
    assert p0 == "/" + a + "/" + b;
    Examples.PointerPair(Input(r0), a, b, p0);
    Examples.WalkFirstFirst(Input(r0), a, b);
  }

  /** Inside the resolution of "#", `{"$ref": "#"}` is cut to `{}`. */
  lemma HashCut(loader: Loader, c: Cache, u: string, r0: string, p0: string, used: seq<string>, f: nat)
    requires Setting(c, u, r0, p0) && u + "#" in used && f >= 1
    ensures Resolve(None, loader, c, Examples.Ref("#"), u, used, f) == Step(Object([]), c, Done)
  {
    SettingFacts(c, u, r0, p0);
    Examples.RefShape("#", u);
    Examples.RefShape(r0, u);
    ReferenceProperties.ReferenceCut(None, loader, c, Examples.Ref("#"), u, used, f, Object([]), "#", u,
                                     Target(u, u + "#", Some("")), Input(r0));
  }

  /**
    Inside the resolution of "#", `{"$ref": "#/properties/prop0"}` comes to
    `{}`: cut at once when it is itself in progress, and otherwise expanded
    to `{"$ref": "#"}`, which is cut.
   */
  lemma Prop0Empty(loader: Loader, c: Cache, u: string, r0: string, p0: string, used: seq<string>, f: nat)
    requires Setting(c, u, r0, p0) && u + "#" in used && f >= 2
    ensures Resolve(None, loader, c, Examples.Ref(r0), u, used, f) == Step(Object([]), c, Done)
  {
    SettingFacts(c, u, r0, p0);
    Examples.RefShape("#", u);
    Examples.RefShape(r0, u);
    var t := Target(u, u + r0, Some(p0));
    if u + r0 in used {
      ReferenceProperties.ReferenceCut(None, loader, c, Examples.Ref(r0), u, used, f, Object([]), r0, u, t,
                                       Examples.Ref("#"));
    } else {
      var less := f - 1;
      ReferenceProperties.ReferenceExpands(None, loader, c, Examples.Ref(r0), u, used, f, Object([]), r0, u, t,
                                           Examples.Ref("#"));
      HashCut(loader, c, u, r0, p0, used + [u + r0], less);
      ReferenceProperties.ExpandResolves(None, loader, c, Object([]), Examples.Ref("#"), t, u, used, f, less,
                                         Object([]), c);
      EmptyVisit(None, loader, c, u, used, less);
    }
  }

  /** Inside the resolution of "#", the document resolves to one unrolling. */
  lemma InputUnrolls(loader: Loader, c: Cache, u: string, r0: string, p0: string, used: seq<string>, g: nat)
    requires Setting(c, u, r0, p0) && u + "#" in used && g >= 4
    ensures Resolve(None, loader, c, Input(r0), u, used, g) == Step(Unrolled(), c, Done)
  {
    var f1 := g - 1;
    var f2 := f1 - 1;
    HashCut(loader, c, u, r0, p0, used, f2);
    Prop0Empty(loader, c, u, r0, p0, used, f2);
    NumberUnchanged(None, loader, c, 5, u, used, f2);
    ThreeResolves(None, loader, c, Examples.Ref("#"), Examples.Ref(r0), Number(5), u, used, g, f1, f2,
                  Object([]), Object([]), Number(5), c, c, c);
  }

  /** One unrolling has nothing left to resolve. */
  lemma UnrolledUnchanged(key: Option<string>, loader: Loader, c: Cache, u: string, used: seq<string>, f: nat)
    requires f >= 2
    ensures Visit(key, loader, c, Unrolled(), u, used, f) == Step(Unrolled(), c, Done)
  {
    var f2 := f - 1;
    Examples.EmptyUnchanged(key, loader, c, u, used, f2);
    NumberUnchanged(key, loader, c, 5, u, used, f2);
    ThreeResolves(key, loader, c, Object([]), Object([]), Number(5), u, used, f + 1, f, f2,
                  Object([]), Object([]), Number(5), c, c, c);
  }

  /** Where "#" is not in progress, `{"$ref": "#"}` becomes one unrolling. */
  lemma HashExpands(loader: Loader, c: Cache, u: string, r0: string, p0: string, used: seq<string>, f: nat)
    requires Setting(c, u, r0, p0) && u + "#" !in used && f >= 5
    ensures Resolve(None, loader, c, Examples.Ref("#"), u, used, f) == Step(Unrolled(), c, Done)
  {
    SettingFacts(c, u, r0, p0);
    Examples.RefShape("#", u);
    Examples.RefShape(r0, u);
    var t := Target(u, u + "#", Some(""));
    var less := f - 1;
    ReferenceProperties.ReferenceExpands(None, loader, c, Examples.Ref("#"), u, used, f, Object([]), "#", u, t,
                                         Input(r0));
    assert (used + [u + "#"])[|used|] == u + "#";
    InputUnrolls(loader, c, u, r0, p0, used + [u + "#"], less);
    ReferenceProperties.ExpandResolves(None, loader, c, Object([]), Input(r0), t, u, used, f, less, Unrolled(), c);
    UnrolledUnchanged(None, loader, c, u, used, less);
  }

  /** Where neither reference is in progress, `{"$ref": "#/properties/prop0"}` becomes one unrolling too. */
  lemma Prop0Expands(loader: Loader, c: Cache, u: string, r0: string, p0: string, used: seq<string>, f: nat)
    requires Setting(c, u, r0, p0) && u + "#" !in used && u + r0 !in used && f >= 6
    ensures Resolve(None, loader, c, Examples.Ref(r0), u, used, f) == Step(Unrolled(), c, Done)
  {
    SettingFacts(c, u, r0, p0);
    Examples.RefShape("#", u);
    Examples.RefShape(r0, u);
    var t := Target(u, u + r0, Some(p0));
    ReferenceProperties.ReferenceExpands(None, loader, c, Examples.Ref(r0), u, used, f, Object([]), r0, u, t,
                                         Examples.Ref("#"));
    Prop0Expansion(loader, c, u, r0, p0, used, f, f - 1);
  }

  /** The two references of the test's document are different strings. */
  lemma Distinct(u: string, r0: string, p0: string)
    requires p0 == "/properties/prop0" && r0 == "#" + p0
    ensures u + "#" != u + r0
  {
    assert |u + "#"| != |u + r0|;
  }

  /**
    A reference not in progress, without reference key, whose target resolves
    to `y` with the cache unchanged, and `y` visits to itself: the node becomes `y`.
   */
  lemma ExpandsTo(loader: Loader, c: Cache, stub: Json, schema: Json, t: Target, base: string, used: seq<string>,
                  f: nat, less: nat, y: Json)
    requires f == less + 1 && t.reference !in used
    requires Resolve(None, loader, c, schema, t.location, used + [t.reference], less) == Step(y, c, Done)
    requires Visit(None, loader, c, y, base, used, less) == Step(y, c, Done)
    ensures Expand(None, loader, c, stub, schema, t, base, used, f) == Step(y, c, Done)
  {
    ReferenceProperties.ExpandResolves(None, loader, c, stub, schema, t, base, used, f, less, y, c);
  }

  /** The expansion of "#/properties/prop0": `{"$ref": "#"}` resolved with that reference in progress. */
  lemma Prop0Expansion(loader: Loader, c: Cache, u: string, r0: string, p0: string, used: seq<string>,
                       f: nat, less: nat)
    requires Setting(c, u, r0, p0) && u + "#" !in used && u + r0 !in used && f == less + 1 && less >= 5
    ensures Expand(None, loader, c, Object([]), Examples.Ref("#"), Target(u, u + r0, Some(p0)), u, used, f)
         == Step(Unrolled(), c, Done)
  {
    var inner := used + [u + r0];
    Distinct(u, r0, p0);
    assert u + "#" !in inner;
    HashExpands(loader, c, u, r0, p0, inner, less);
    UnrolledUnchanged(None, loader, c, u, used, less);
    ExpandsTo(loader, c, Object([]), Examples.Ref("#"), Target(u, u + r0, Some(p0)), u, used, f, less, Unrolled());
  }

  /**
    `json_with_multiple_recursion`: `{"properties": {"prop0": {"$ref": "#"},
    "prop1": {"$ref": "#/properties/prop0"}, "prop2": 5}}` becomes the
    document with both references replaced by `{"properties": {"prop0": {},
    "prop1": {}, "prop2": 5}}`, and the cache is left as it was.
   */
  lemma MultipleRecursionExample(loader: Loader, cache: Cache, u: string, r0: string, p0: string, fuel: nat)
    requires Examples.Base(u) && p0 == "/properties/prop0" && r0 == "#" + p0 && fuel >= 8
    ensures var c := cache[u := Input(r0)];
      Resolve(None, loader, c, Input(r0), u, [], fuel) == Step(Expected(), c, Done)
  {
    var c := cache[u := Input(r0)];
    var f1 := fuel - 1;
    var f2 := f1 - 1;
    HashExpands(loader, c, u, r0, p0, [], f2);
    Prop0Expands(loader, c, u, r0, p0, [], f2);
    NumberUnchanged(None, loader, c, 5, u, [], f2);
    ThreeResolves(None, loader, c, Examples.Ref("#"), Examples.Ref(r0), Number(5), u, [], fuel, f1, f2,
                  Unrolled(), Unrolled(), Number(5), c, c, c);
  }
}
