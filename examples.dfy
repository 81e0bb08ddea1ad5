/**
  The documented examples and the unit tests of the library, stated over the
  model: each document is cached at a base `u` (as `deref_value` caches it
  under its anonymous file URL) and resolved from the top, with the reference
  key the example sets. `u` is any absolute URL without fragment, so that a
  fragment-only reference stays in the document. Strings that the verifier
  would otherwise unfold character by character (pointers, references) are
  parameters fixed by a `requires`.
 */
module Examples {
  import opened Wrappers
  import opened Json
  import Uri
  import Pointer
  import opened Resolver
  import JsonRefs
  import ResolverProperties
  import ReferenceProperties

  /** The bases the examples hold for: absolute, without fragment. */
  predicate Base(u: string)
  {
    Uri.ParseAbsolute(u).Some? && Uri.ParseAbsolute(u).value.fragment.None?
  }

  lemma BaseOfParts(s: string)
    requires '#' !in s && Uri.Parse(s).scheme.Some?
    ensures Base(s)
  {
    Uri.FragmentInString(s);
  }

  lemma AnonUrlScheme(cwd: string)
    ensures Uri.Parse(JsonRefs.AnonUrl(cwd)).scheme.Some?
  {
    var rest := "//" + cwd + "/anon.json";
    assert JsonRefs.AnonUrl(cwd) == "file" + ":" + rest;
    Uri.ParseWithScheme("file", rest);
  }

  /** The anonymous file URL of `deref_value` is such a base when the directory name has no '#'. */
  lemma AnonUrlIsBase(cwd: string)
    requires '#' !in cwd
    ensures Base(JsonRefs.AnonUrl(cwd))
  {
    AnonUrlScheme(cwd);
    AnonUrlNoHash(cwd);
    BaseOfParts(JsonRefs.AnonUrl(cwd));
  }

  lemma AnonUrlNoHash(cwd: string)
    requires '#' !in cwd
    ensures '#' !in JsonRefs.AnonUrl(cwd)
  {
  }

  // ---------------------------------------------------------------------------
  // Evaluation steps
  // ---------------------------------------------------------------------------

  /** An object without `$ref` and `$id` is its children's visit. */
  lemma PlainNode(key: Option<string>, loader: Loader, cache: Cache, ms: Members, id: string, used: seq<string>,
                  fuel: nat, less: nat)
    requires fuel == less + 1 && Get(ms, "$ref").None? && Get(ms, "$id").None?
    ensures Resolve(key, loader, cache, Object(ms), id, used, fuel) == Visit(key, loader, cache, Object(ms), id, used, less)
  {
  }

  /** The visit of a one-member object is the resolution of its value. */
  lemma OneMember(key: Option<string>, loader: Loader, cache: Cache, k: string, x: Json, base: string,
                  used: seq<string>, fuel: nat)
    ensures var r := Resolve(key, loader, cache, x, base, used, fuel);
      Visit(key, loader, cache, Object([(k, x)]), base, used, fuel) == Step(Object([(k, r.value)]), r.cache, r.outcome)
  {
    var r := Resolve(key, loader, cache, x, base, used, fuel);
    assert [(k, x)][1..] == [] && [(k, r.value)] + [] == [(k, r.value)];
    assert ResolveMembers(key, loader, r.cache, [], base, used, fuel) == Step([], r.cache, Done);
    assert ResolveMembers(key, loader, cache, [(k, x)], base, used, fuel) == Step([(k, r.value)], r.cache, r.outcome);
  }

  /** The visit of a two-member object whose first value succeeds. */
  lemma TwoMembers(key: Option<string>, loader: Loader, cache: Cache, k1: string, x1: Json, k2: string, x2: Json,
                   base: string, used: seq<string>, fuel: nat)
    requires Resolve(key, loader, cache, x1, base, used, fuel).outcome.Done?
    ensures var r1 := Resolve(key, loader, cache, x1, base, used, fuel);
      var r2 := Resolve(key, loader, r1.cache, x2, base, used, fuel);
      Visit(key, loader, cache, Object([(k1, x1), (k2, x2)]), base, used, fuel)
        == Step(Object([(k1, r1.value), (k2, r2.value)]), r2.cache, r2.outcome)
  {
    var ms := [(k1, x1), (k2, x2)];
    var r1 := Resolve(key, loader, cache, x1, base, used, fuel);
    var r2 := Resolve(key, loader, r1.cache, x2, base, used, fuel);
    assert ms[1..] == [(k2, x2)] && ms[1..][1..] == [];
    assert [(k2, r2.value)] + [] == [(k2, r2.value)];
    assert [(k1, r1.value)] + [(k2, r2.value)] == [(k1, r1.value), (k2, r2.value)];
    assert ResolveMembers(key, loader, r2.cache, [], base, used, fuel) == Step([], r2.cache, Done);
    assert ResolveMembers(key, loader, r1.cache, [(k2, x2)], base, used, fuel) == Step([(k2, r2.value)], r2.cache, r2.outcome);
    assert ResolveMembers(key, loader, cache, ms, base, used, fuel)
        == Step([(k1, r1.value), (k2, r2.value)], r2.cache, r2.outcome);
  }

  /** `{"properties": {"prop1": x}}` */
  function Props(x: Json): Json
  {
    Object([("properties", Object([("prop1", x)]))])
  }

  /** Resolving `{"properties": {"prop1": x}}` resolves `x`, two levels down. */
  lemma Wrapped(key: Option<string>, loader: Loader, cache: Cache, x: Json, id: string, used: seq<string>,
                fuel: nat, f1: nat, f2: nat, y: Json, cache1: Cache)
    requires fuel == f1 + 1 && f1 == f2 + 1
    requires Resolve(key, loader, cache, x, id, used, f2) == Step(y, cache1, Done)
    ensures Resolve(key, loader, cache, Props(x), id, used, fuel) == Step(Props(y), cache1, Done)
  {
    PlainNode(key, loader, cache, Props(x).members, id, used, fuel, f1);
    OneMember(key, loader, cache, "properties", Object([("prop1", x)]), id, used, f1);
    PlainNode(key, loader, cache, [("prop1", x)], id, used, f1, f2);
    OneMember(key, loader, cache, "prop1", x, id, used, f2);
  }

  // ---------------------------------------------------------------------------
  // `json_with_recursion`
  // ---------------------------------------------------------------------------

  /** `{"properties": {"prop1": {"$ref": "#"}}}` */
  function Recursive(): Json
  {
    Props(ReferenceProperties.SelfRef())
  }

  /** The facts about `Recursive()` cached at `u` that the steps below share. */
  lemma RecursiveTarget(cache: Cache, u: string)
    requires Base(u) && u in cache && cache[u] == Recursive()
    ensures Locate(u, "#") == Ok(Target(u, u + "#", Some("")))
    ensures Target(u, u + "#", Some("")).location in cache &&
            Select(cache[Target(u, u + "#", Some("")).location], Target(u, u + "#", Some("")).fragment) == Some(Recursive())
    ensures Target(u, u + "#", Some("")).reference == u + "#"
  {
    ReferenceProperties.LocateFragment(u, "");
    assert "#" + "" == "#" && u + "#" + "" == u + "#";
  }

  /** Inside the resolution of "#", the inner `{"$ref": "#"}` is cut to `{}`. */
  lemma RecursionCut(loader: Loader, cache: Cache, u: string, used: seq<string>, fuel: nat)
    requires Base(u) && u in cache && cache[u] == Recursive()
    requires fuel >= 1 && u + "#" in used
    ensures Resolve(None, loader, cache, ReferenceProperties.SelfRef(), u, used, fuel) == Step(Object([]), cache, Done)
  {
    RecursiveTarget(cache, u);
    ReferenceProperties.Shapes(u);
    ReferenceProperties.ReferenceCut(None, loader, cache, ReferenceProperties.SelfRef(), u, used, fuel, Object([]), "#", u,
                                     Target(u, u + "#", Some("")), Recursive());
  }

  /** The resolution of "#" itself: the document once more, its own reference cut. */
  lemma RecursionInner(loader: Loader, cache: Cache, u: string, fuel: nat, f1: nat, f2: nat)
    requires Base(u) && u in cache && cache[u] == Recursive()
    requires fuel == f1 + 1 && f1 == f2 + 1 && f2 >= 1
    ensures Resolve(None, loader, cache, Recursive(), u, [u + "#"], fuel) == Step(Props(Object([])), cache, Done)
  {
    assert [u + "#"][0] == u + "#";
    RecursionCut(loader, cache, u, [u + "#"], f2);
    Wrapped(None, loader, cache, ReferenceProperties.SelfRef(), u, [u + "#"], fuel, f1, f2, Object([]), cache);
  }

  /** `{}` stays as it is. */
  lemma EmptyUnchanged(key: Option<string>, loader: Loader, cache: Cache, id: string, used: seq<string>, fuel: nat)
    requires fuel >= 1
    ensures Resolve(key, loader, cache, Object([]), id, used, fuel) == Step(Object([]), cache, Done)
  {
    assert Get([], "$ref").None? && BaseOf(Object([]), id) == id;
    assert Visit(key, loader, cache, Object([]), id, used, fuel - 1) == Step(Object([]), cache, Done);
  }

  /** `{"properties": {"prop1": {}}}` stays as it is, and so do its children. */
  lemma PlainProps(loader: Loader, cache: Cache, u: string, fuel: nat, less: nat)
    requires fuel == less + 1 && less >= 2
    ensures Visit(None, loader, cache, Props(Object([])), u, [], less) == Step(Props(Object([])), cache, Done)
  {
    var f2 := less - 1;
    EmptyUnchanged(None, loader, cache, u, [], f2);
    Wrapped(None, loader, cache, Object([]), u, [], fuel, less, f2, Object([]), cache);
    PlainNode(None, loader, cache, Props(Object([])).members, u, [], fuel, less);
  }

  /** The outer `{"$ref": "#"}` expands the whole document. */
  lemma RecursionExpands(loader: Loader, cache: Cache, u: string, fuel: nat)
    requires Base(u) && u in cache && cache[u] == Recursive() && fuel >= 1
    ensures Resolve(None, loader, cache, ReferenceProperties.SelfRef(), u, [], fuel)
         == Expand(None, loader, cache, Object([]), Recursive(), Target(u, u + "#", Some("")), u, [], fuel)
  {
    RecursiveTarget(cache, u);
    ReferenceProperties.Shapes(u);
    ReferenceProperties.ReferenceExpands(None, loader, cache, ReferenceProperties.SelfRef(), u, [], fuel, Object([]), "#", u,
                                         Target(u, u + "#", Some("")), Recursive());
  }

  /** The expansion: the document with its inner reference cut, whose children are then left as they are. */
  lemma RecursionExpansion(loader: Loader, cache: Cache, u: string, fuel: nat, less: nat)
    requires Base(u) && u in cache && cache[u] == Recursive()
    requires fuel == less + 1 && less >= 3
    ensures Expand(None, loader, cache, Object([]), Recursive(), Target(u, u + "#", Some("")), u, [], fuel)
         == Step(Props(Object([])), cache, Done)
  {
    var f1 := less - 1;
    var f2 := f1 - 1;
    RecursionInner(loader, cache, u, less, f1, f2);
    assert [] + [u + "#"] == [u + "#"];
    ReferenceProperties.ExpandResolves(None, loader, cache, Object([]), Recursive(), Target(u, u + "#", Some("")), u, [],
                                       fuel, less, Props(Object([])), cache);
    PlainProps(loader, cache, u, fuel, less);
  }

  /**
    `json_with_recursion`: `{"properties": {"prop1": {"$ref": "#"}}}` becomes
    `{"properties": {"prop1": {"properties": {"prop1": {}}}}}`: the reference
    is followed once, and within it the same reference is cut.
   */
  lemma RecursionExample(loader: Loader, cache: Cache, u: string, fuel: nat)
    requires Base(u) && fuel >= 6
    ensures Resolve(None, loader, cache[u := Recursive()], Recursive(), u, [], fuel)
         == Step(Props(Props(Object([]))), cache[u := Recursive()], Done)
  {
    var c := cache[u := Recursive()];
    var f1 := fuel - 1;
    var f2 := f1 - 1;
    RecursionExpands(loader, c, u, f2);
    RecursionExpansion(loader, c, u, f2, f2 - 1);
    Wrapped(None, loader, c, ReferenceProperties.SelfRef(), u, [], fuel, f1, f2, Props(Object([])), c);
  }

  // ---------------------------------------------------------------------------
  // `json_no_refs`, and the examples of the crate documentation
  // ---------------------------------------------------------------------------

  /** `{"title": s}` */
  function Title(s: string): Json
  {
    Object([("title", String(s))])
  }

  /** A scalar is left as it is. */
  lemma ScalarUnchanged(key: Option<string>, loader: Loader, cache: Cache, s: string, id: string, used: seq<string>,
                        fuel: nat)
    requires fuel >= 1
    ensures Resolve(key, loader, cache, String(s), id, used, fuel) == Step(String(s), cache, Done)
  {
  }

  /** `{"title": s}` is left as it is. */
  lemma TitleUnchanged(key: Option<string>, loader: Loader, cache: Cache, s: string, id: string, used: seq<string>,
                       fuel: nat, less: nat)
    requires fuel == less + 1 && less >= 1
    ensures Resolve(key, loader, cache, Title(s), id, used, fuel) == Step(Title(s), cache, Done)
    ensures Visit(key, loader, cache, Title(s), id, used, less) == Step(Title(s), cache, Done)
  {
    ScalarUnchanged(key, loader, cache, s, id, used, less);
    OneMember(key, loader, cache, "title", String(s), id, used, less);
    PlainNode(key, loader, cache, Title(s).members, id, used, fuel, less);
  }

  /**
    `json_no_refs`: `{"properties": {"prop1": {"title": "proptitle"}}}` is
    left as it is, whatever the base, the path and the reference key.
   */
  lemma NoRefsExample(key: Option<string>, loader: Loader, cache: Cache, id: string, used: seq<string>, fuel: nat)
    requires fuel >= 4
    ensures Resolve(key, loader, cache, Props(Title("proptitle")), id, used, fuel)
         == Step(Props(Title("proptitle")), cache, Done)
  {
    var f1 := fuel - 1;
    var f2 := f1 - 1;
    TitleUnchanged(key, loader, cache, "proptitle", id, used, f2, f2 - 1);
    Wrapped(key, loader, cache, Title("proptitle"), id, used, fuel, f1, f2, Title("proptitle"), cache);
  }

  /** `{"properties": {"prop1": {"title": "name"}, "prop2": x}}` */
  function Doc(x: Json): Json
  {
    Object([("properties", Object([("prop1", Title("name")), ("prop2", x)]))])
  }

  // ---------------------------------------------------------------------------
  // Pointers into the example documents
  // ---------------------------------------------------------------------------

  /** The pointer to a member of a member, for two names that need no escaping. */
  lemma EncodePair(a: string, b: string)
    requires '~' !in a && '/' !in a && '~' !in b && '/' !in b
    ensures Pointer.Encode([a, b]) == "/" + a + "/" + b
  {
    assert [a, b][1..] == [b] && [b][1..] == [];
    assert Pointer.Encode([b]) == "/" + Pointer.Escape(b) + Pointer.Encode([]);
    Pointer.EscapePlain(a);
    Pointer.EscapePlain(b);
  }

  /**
    The pointer "/a/b" selects member `b` of member `a`. (The names are
    parameters: literal strings here would be unfolded character by character
    by the verifier.)
   */
  lemma PointerPair(doc: Json, a: string, b: string, p: string)
    requires '~' !in a && '/' !in a && '~' !in b && '/' !in b && p == "/" + a + "/" + b
    ensures Select(doc, Some(p)) == Pointer.Walk(doc, [a, b])
  {
    EncodePair(a, b);
    Pointer.LookupEncode(doc, [a, b]);
  }

  /** Walking `[a, b]` from an object whose first member is `a`, whose value's first member is `b`. */
  lemma WalkFirstFirst(doc: Json, a: string, b: string)
    requires doc.Object? && doc.members != [] && doc.members[0].0 == a
    requires doc.members[0].1.Object? && doc.members[0].1.members != [] && doc.members[0].1.members[0].0 == b
    ensures Pointer.Walk(doc, [a, b]) == Some(doc.members[0].1.members[0].1)
  {
    var inner := doc.members[0].1;
    var target := inner.members[0].1;
    assert [a, b][1..] == [b] && [b][1..] == [];
    assert Pointer.Walk(target, []) == Some(target);
    assert Pointer.Walk(inner, [b]) == Pointer.Walk(target, []);
    assert Pointer.Walk(doc, [a, b]) == Pointer.Walk(inner, [b]);
  }

  /** "/properties/prop1" selects `prop1` of the documented examples. */
  lemma DocPointer(x: Json, a: string, b: string, p: string)
    requires a == "properties" && b == "prop1" && p == "/properties/prop1"
    ensures Select(Doc(x), Some(p)) == Some(Title("name"))
  {
    assert p == "/" + a + "/" + b;
    PointerPair(Doc(x), a, b, p);
    WalkFirstFirst(Doc(x), a, b);
  }

  /** A fragment-only reference `r` = "#p" against `u` locates `u` with fragment `p`. */
  lemma LocateHash(u: string, r: string, p: string)
    requires Base(u) && r == "#" + p
    ensures Locate(u, r) == Ok(Target(u, u + r, Some(p)))
  {
    ReferenceProperties.LocateFragment(u, p);
    Regroup(u, "#", p);
  }

  // ---------------------------------------------------------------------------
  // The example of the crate documentation, with and without a reference key
  // ---------------------------------------------------------------------------

  /** `{"$ref": r}` */
  function Ref(r: string): Json
  {
    Object([("$ref", String(r))])
  }

  /** `{"$ref": r}` has no `$id` and is empty once its `$ref` is removed. */
  lemma RefShape(r: string, u: string)
    ensures Get(Ref(r).members, "$ref") == Some(String(r))
    ensures BaseOf(Ref(r), u) == u && Remove(Ref(r).members, "$ref") == []
  {
  }

  /** `{"$ref": r, "title": t}` */
  function TitledRef(r: string, t: string): Json
  {
    Object([("$ref", String(r)), ("title", String(t))])
  }

  /** `{"$ref": r, "title": t}` has no `$id` and is `{"title": t}` once its `$ref` is removed. */
  lemma TitledRefShape(r: string, t: string, u: string)
    ensures Get(TitledRef(r, t).members, "$ref") == Some(String(r))
    ensures BaseOf(TitledRef(r, t), u) == u && Remove(TitledRef(r, t).members, "$ref") == Title(t).members
  {
  }

  /** Resolving `{"properties": {"prop1": {"title": "name"}, "prop2": x}}` resolves `x`, two levels down. */
  lemma DocResolves(key: Option<string>, loader: Loader, cache: Cache, x: Json, id: string, used: seq<string>,
                    fuel: nat, f1: nat, f2: nat, y: Json, cache1: Cache)
    requires fuel == f1 + 1 && f1 == f2 + 1 && f2 >= 2
    requires Resolve(key, loader, cache, x, id, used, f2) == Step(y, cache1, Done)
    ensures Resolve(key, loader, cache, Doc(x), id, used, fuel) == Step(Doc(y), cache1, Done)
  {
    var inner := Object([("prop1", Title("name")), ("prop2", x)]);
    PlainNode(key, loader, cache, Doc(x).members, id, used, fuel, f1);
    OneMember(key, loader, cache, "properties", inner, id, used, f1);
    PlainNode(key, loader, cache, inner.members, id, used, f1, f2);
    TitleUnchanged(key, loader, cache, "name", id, used, f2, f2 - 1);
    TwoMembers(key, loader, cache, "prop1", Title("name"), "prop2", x, id, used, f2);
  }

  /** The node `{"$ref": r, ...}` of the documented examples at `u` expands `{"title": "name"}`. */
  lemma DocRefExpands(key: Option<string>, loader: Loader, cache: Cache, u: string, r: string, p: string,
                      x: Json, stub: Json, used: seq<string>, fuel: nat)
    requires Base(u) && r == "#" + p && fuel >= 1
    requires x.Object? && Get(x.members, "$ref") == Some(String(r)) && Get(x.members, "$id").None?
    requires Object(Remove(x.members, "$ref")) == stub
    requires u in cache && cache[u] == Doc(x) && Select(Doc(x), Some(p)) == Some(Title("name"))
    ensures Resolve(key, loader, cache, x, u, used, fuel)
         == Expand(key, loader, cache, stub, Title("name"), Target(u, u + r, Some(p)), u, used, fuel)
  {
    LocateHash(u, r, p);
    ReferenceProperties.ReferenceExpands(key, loader, cache, x, u, used, fuel, stub, r, u, Target(u, u + r, Some(p)),
                                         Title("name"));
  }

  /**
    The example of the crate documentation: `{"properties": {"prop1":
    {"title": "name"}, "prop2": {"$ref": "#/properties/prop1"}}}` becomes
    `{"properties": {"prop1": {"title": "name"}, "prop2": {"title": "name"}}}`,
    and the cache is left as it was.
   */
  lemma SimpleExample(loader: Loader, cache: Cache, u: string, r: string, p: string, fuel: nat)
    requires Base(u) && r == "#" + p && p == "/properties/prop1" && fuel >= 5
    ensures var c := cache[u := Doc(Ref(r))];
      Resolve(None, loader, c, Doc(Ref(r)), u, [], fuel) == Step(Doc(Title("name")), c, Done)
  {
    var c := cache[u := Doc(Ref(r))];
    var f1 := fuel - 1;
    var f2 := f1 - 1;
    DocPointer(Ref(r), "properties", "prop1", p);
    SimpleRef(loader, c, u, r, p, f2);
    DocResolves(None, loader, c, Ref(r), u, [], fuel, f1, f2, Title("name"), c);
  }

  lemma SimpleRef(loader: Loader, c: Cache, u: string, r: string, p: string, f2: nat)
    requires Base(u) && r == "#" + p && f2 >= 3
    requires u in c && c[u] == Doc(Ref(r)) && Select(Doc(Ref(r)), Some(p)) == Some(Title("name"))
    ensures Resolve(None, loader, c, Ref(r), u, [], f2) == Step(Title("name"), c, Done)
  {
    var t := Target(u, u + r, Some(p));
    RefShape(r, u);
    DocRefExpands(None, loader, c, u, r, p, Ref(r), Object([]), [], f2);
    TitleExpands(None, loader, c, Object([]), "name", t, u, [], f2);
  }

  /** A reference not in progress whose target is `{"title": s}`, with no reference key, becomes that target. */
  lemma TitleExpands(key: Option<string>, loader: Loader, c: Cache, stub: Json, s: string, t: Target, base: string,
                     used: seq<string>, fuel: nat)
    requires fuel >= 3 && t.reference !in used && key.None?
    ensures Expand(key, loader, c, stub, Title(s), t, base, used, fuel) == Step(Title(s), c, Done)
  {
    TitleUnchanged(key, loader, c, s, t.location, used + [t.reference], fuel - 1, fuel - 2);
    ReferenceProperties.ExpandResolves(key, loader, c, stub, Title(s), t, base, used, fuel, fuel - 1, Title(s), c);
    TitleUnchanged(key, loader, c, s, base, used, fuel, fuel - 1);
  }

  /** `{"title": t, k: {"title": "old_title"}}` */
  function KeptTitle(k: string, t: string): Json
  {
    Object([("title", String(t)), (k, Title("old_title"))])
  }

  /** With reference key `k`, `{"title": t}` substituted for `{"title": "old_title"}` keeps the latter under `k`. */
  lemma SubstituteKept(k: string, t: string)
    requires k != "title"
    ensures Substitute(Some(k), Title(t), Title("old_title")) == KeptTitle(k, t)
  {
    assert Remove(Title(t).members, k) == Title(t).members;
  }

  /** `{"title": t, k: {"title": "old_title"}}` has nothing to resolve. */
  lemma KeptTitleUnchanged(key: Option<string>, loader: Loader, cache: Cache, k: string, t: string, id: string,
                           used: seq<string>, fuel: nat)
    requires fuel >= 2
    ensures Visit(key, loader, cache, KeptTitle(k, t), id, used, fuel) == Step(KeptTitle(k, t), cache, Done)
  {
    ScalarUnchanged(key, loader, cache, t, id, used, fuel);
    TitleUnchanged(key, loader, cache, "old_title", id, used, fuel, fuel - 1);
    TwoMembers(key, loader, cache, "title", String(t), k, Title("old_title"), id, used, fuel);
  }

  /**
    The example of `set_reference_key`: with the reference key
    "__reference__", `{"$ref": "#/properties/prop1", "title": "old_title"}`
    becomes `{"title": "name", "__reference__": {"title": "old_title"}}`: the
    resolved content at the top, what the `$ref` replaced under the key.
   */
  lemma ReferenceKeyExample(loader: Loader, cache: Cache, u: string, r: string, p: string, k: string, fuel: nat)
    requires Base(u) && r == "#" + p && p == "/properties/prop1" && k == "__reference__" && fuel >= 5
    ensures var c := cache[u := Doc(TitledRef(r, "old_title"))];
      Resolve(Some(k), loader, c, Doc(TitledRef(r, "old_title")), u, [], fuel) == Step(Doc(KeptTitle(k, "name")), c, Done)
  {
    var x := TitledRef(r, "old_title");
    var c := cache[u := Doc(x)];
    var f1 := fuel - 1;
    var f2 := f1 - 1;
    DocPointer(x, "properties", "prop1", p);
    KeptRef(loader, c, u, r, p, k, f2);
    DocResolves(Some(k), loader, c, x, u, [], fuel, f1, f2, KeptTitle(k, "name"), c);
  }

  lemma KeptRef(loader: Loader, c: Cache, u: string, r: string, p: string, k: string, f2: nat)
    requires Base(u) && r == "#" + p && k == "__reference__" && f2 >= 3
    requires u in c && c[u] == Doc(TitledRef(r, "old_title"))
    requires Select(Doc(TitledRef(r, "old_title")), Some(p)) == Some(Title("name"))
    ensures Resolve(Some(k), loader, c, TitledRef(r, "old_title"), u, [], f2) == Step(KeptTitle(k, "name"), c, Done)
  {
    var x := TitledRef(r, "old_title");
    assert Remove(x.members, "$ref") == Title("old_title").members;
    DocRefExpands(Some(k), loader, c, u, r, p, x, Title("old_title"), [], f2);
    KeptExpands(loader, c, k, "name", Target(u, u + r, Some(p)), u, [], f2);
  }

  /**
    With a reference key `k`, a reference not in progress whose target is
    `{"title": s}` replaces `{"title": "old_title"}` by `{"title": s, k: {"title": "old_title"}}`.
   */
  lemma KeptExpands(loader: Loader, c: Cache, k: string, s: string, t: Target, base: string, used: seq<string>,
                    fuel: nat)
    requires k != "title" && t.reference !in used && fuel >= 3
    ensures Expand(Some(k), loader, c, Title("old_title"), Title(s), t, base, used, fuel)
         == Step(KeptTitle(k, s), c, Done)
  {
    TitleUnchanged(Some(k), loader, c, s, t.location, used + [t.reference], fuel - 1, fuel - 2);
    ReferenceProperties.ExpandResolves(Some(k), loader, c, Title("old_title"), Title(s), t, base, used, fuel,
                                       fuel - 1, Title(s), c);
    SubstituteKept(k, s);
    KeptTitleUnchanged(Some(k), loader, c, k, s, base, used, fuel - 1);
  }

  // ---------------------------------------------------------------------------
  // `simple_from_url`: a reference to another document
  // ---------------------------------------------------------------------------

  /** An absolute reference without fragment locates itself, whatever the base. */
  lemma LocateAbsolute(u: string, r: string)
    requires Base(u) && Base(r)
    ensures Locate(u, r) == Ok(Target(r, r, None))
  {
    var b := Uri.ParseAbsolute(u).value;
    Uri.JoinAbsolute(b, r);
    var t := Uri.Parse(r);
    assert Uri.WithoutFragment(t) == t;
  }

  /**
    The node `{"$ref": r, "title": "old_title"}` of `simple_from_url`, where
    `r` is a location not yet cached whose document is `{"title": t}`: the
    document is fetched and cached under `r`, and substituted.
   */
  lemma UrlRef(loader: Loader, c: Cache, u: string, r: string, k: string, t: string, f2: nat)
    requires Base(u) && Base(r) && StartsWith(r, "http") && r !in c && k == "__reference__" && f2 >= 3
    requires r in loader && loader[r] == Fetched(Title(t))
    ensures Resolve(Some(k), loader, c, TitledRef(r, "old_title"), u, [], f2)
         == Step(KeptTitle(k, t), c[r := Title(t)], Done)
  {
    UrlFetched(loader, c, u, r, k, t, f2);
    KeptExpands(loader, c[r := Title(t)], k, t, Target(r, r, None), u, [], f2);
  }

  /** The same node, up to the expansion of the fetched document. */
  lemma UrlFetched(loader: Loader, c: Cache, u: string, r: string, k: string, t: string, f2: nat)
    requires Base(u) && Base(r) && StartsWith(r, "http") && r !in c && f2 >= 1
    requires r in loader && loader[r] == Fetched(Title(t))
    ensures Resolve(Some(k), loader, c, TitledRef(r, "old_title"), u, [], f2)
         == Expand(Some(k), loader, c[r := Title(t)], Title("old_title"), Title(t), Target(r, r, None), u, [], f2)
  {
    LocateAbsolute(u, r);
    TitledRefShape(r, "old_title", u);
    ReferenceProperties.ReferenceFetches(Some(k), loader, c, TitledRef(r, "old_title"), u, [], f2,
                                         Title("old_title"), r, u, Target(r, r, None), Title(t), Title(t));
  }

  /**
    `simple_from_url`: with the reference key "__reference__", a `$ref` to an
    absolute http URL `r` whose document is `{"title": "title from url"}`
    becomes `{"title": "title from url", "__reference__": {"title":
    "old_title"}}`, and the fetched document is cached under `r`.
   */
  lemma UrlExample(loader: Loader, cache: Cache, u: string, r: string, k: string, fuel: nat)
    requires Base(u) && Base(r) && StartsWith(r, "http") && r != u && r !in cache
    requires r in loader && loader[r] == Fetched(Title("title from url"))
    requires k == "__reference__" && fuel >= 5
    ensures var c := cache[u := Doc(TitledRef(r, "old_title"))];
      Resolve(Some(k), loader, c, Doc(TitledRef(r, "old_title")), u, [], fuel)
        == Step(Doc(KeptTitle(k, "title from url")), c[r := Title("title from url")], Done)
  {
    var x := TitledRef(r, "old_title");
    var c := cache[u := Doc(x)];
    var f1 := fuel - 1;
    var f2 := f1 - 1;
    UrlRef(loader, c, u, r, k, "title from url", f2);
    DocResolves(Some(k), loader, c, x, u, [], fuel, f1, f2, KeptTitle(k, "title from url"), c[r := Title("title from url")]);
  }
}
