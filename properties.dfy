/**
  What `Resolver.Resolve` (and so `JsonRef.deref`) guarantees: values without
  references come back as they are, the schema cache only ever gains documents
  the loader supplied, a node that resolves loses its `$ref`, a top-level
  resolution that succeeds leaves no `$ref` anywhere, and the order in which
  the reference branch does its work (pointer before cycle check, `$id`
  before the base) shows in its results.
 */
module ResolverProperties {
  import opened Wrappers
  import opened Json
  import Pointer
  import Uri
  import opened Resolver

  // ---------------------------------------------------------------------------
  // Values without references
  // ---------------------------------------------------------------------------

  /** A value with no `$ref` anywhere is left as it is, and the cache untouched, given fuel for its depth. */
  lemma {:induction false} NoRefsUnchanged(key: Option<string>, loader: Loader, cache: Cache, v: Json, id: string,
                                          used: seq<string>, fuel: nat)
    requires NoRefs(v) && fuel >= Depth(v)
    ensures Resolve(key, loader, cache, v, id, used, fuel) == Step(v, cache, Done)
    decreases fuel, 2
  {
    var base := BaseOf(v, id);
    match v
    case Object(ms) =>
      assert Get(ms, "$ref").None?;
      MembersUnchanged(key, loader, cache, ms, base, used, fuel - 1);
    case Array(items) =>
      ItemsUnchanged(key, loader, cache, items, base, used, fuel - 1);
    case _ =>
  }

  lemma {:induction false} MembersUnchanged(key: Option<string>, loader: Loader, cache: Cache, ms: Members, base: string,
                                           used: seq<string>, fuel: nat)
    requires forall i :: 0 <= i < |ms| ==> NoRefs(ms[i].1) && Depth(ms[i].1) <= fuel
    ensures ResolveMembers(key, loader, cache, ms, base, used, fuel) == Step(ms, cache, Done)
    decreases fuel, |ms| + 2
  {
    if ms != [] {
      NoRefsUnchanged(key, loader, cache, ms[0].1, base, used, fuel);
      MembersUnchanged(key, loader, cache, ms[1..], base, used, fuel);
      assert [(ms[0].0, ms[0].1)] + ms[1..] == ms;
    }
  }

  lemma {:induction false} ItemsUnchanged(key: Option<string>, loader: Loader, cache: Cache, items: seq<Json>, base: string,
                                         used: seq<string>, fuel: nat)
    requires forall i :: 0 <= i < |items| ==> NoRefs(items[i]) && Depth(items[i]) <= fuel
    ensures ResolveItems(key, loader, cache, items, base, used, fuel) == Step(items, cache, Done)
    decreases fuel, |items| + 2
  {
    if items != [] {
      NoRefsUnchanged(key, loader, cache, items[0], base, used, fuel);
      ItemsUnchanged(key, loader, cache, items[1..], base, used, fuel);
      assert [items[0]] + items[1..] == items;
    }
  }

  // ---------------------------------------------------------------------------
  // Shape: visiting the children keeps every key
  // ---------------------------------------------------------------------------

  /** The children of an object are rewritten under their own keys, whatever happens to them. */
  lemma {:induction false} MembersKeepKeys(key: Option<string>, loader: Loader, cache: Cache, ms: Members, base: string,
                                          used: seq<string>, fuel: nat)
    ensures Keys(ResolveMembers(key, loader, cache, ms, base, used, fuel).value) == Keys(ms)
    decreases |ms|
  {
    if ms != [] {
      var r := ResolveMembers(key, loader, cache, ms, base, used, fuel);
      var head := Resolve(key, loader, cache, ms[0].1, base, used, fuel);
      assert r.value[0].0 == ms[0].0;
      if head.outcome.Failed? {
        assert r.value[1..] == ms[1..];
      } else {
        var tail := ResolveMembers(key, loader, head.cache, ms[1..], base, used, fuel);
        assert r.value[1..] == tail.value;
        MembersKeepKeys(key, loader, head.cache, ms[1..], base, used, fuel);
      }
    }
  }

  /** An object carries no `$ref` key at its top level. */
  predicate TopRefFree(v: Json)
  {
    v.Object? ==> "$ref" !in Keys(v.members)
  }

  /** Visiting the children of a value keeps its kind and, for an object, its keys. */
  lemma VisitKeepsKeys(key: Option<string>, loader: Loader, cache: Cache, v: Json, base: string,
                       used: seq<string>, fuel: nat)
    ensures var r := Visit(key, loader, cache, v, base, used, fuel).value;
      r.Object? == v.Object? && (v.Object? ==> Keys(r.members) == Keys(v.members))
  {
    if v.Object? {
      MembersKeepKeys(key, loader, cache, v.members, base, used, fuel);
    }
  }

  // ---------------------------------------------------------------------------
  // A resolved node has no `$ref`
  // ---------------------------------------------------------------------------

  /**
    When a node resolves without error, its `$ref` is gone: it was removed,
    or the node was replaced by resolved content (which has none at its top
    level) plus, under the reference key, that removed-from node.
   */
  lemma {:induction false} ResolvedTopRefFree(key: Option<string>, loader: Loader, cache: Cache, v: Json, id: string,
                                             used: seq<string>, fuel: nat)
    requires key != Some("$ref")
    requires Resolve(key, loader, cache, v, id, used, fuel).outcome.Done?
    ensures TopRefFree(Resolve(key, loader, cache, v, id, used, fuel).value)
    decreases fuel, 2
  {
    var base := BaseOf(v, id);
    if v.Object? && Get(v.members, "$ref").Some? {
      var reference := Get(v.members, "$ref").value;
      var stub := Object(Remove(v.members, "$ref"));
      if reference.String? {
        var located := Locate(base, reference.s);
        if located.Ok? {
          var t := located.value;
          var retrieved := Retrieve(cache, loader, t.location);
          if retrieved.1.Ok? && Select(retrieved.1.value, t.fragment).Some? {
            var schema := Select(retrieved.1.value, t.fragment).value;
            ExpandTopRefFree(key, loader, retrieved.0, stub, schema, t, base, used, fuel);
          }
        }
      } else {
        VisitKeepsKeys(key, loader, cache, stub, base, used, fuel - 1);
      }
    } else {
      VisitKeepsKeys(key, loader, cache, v, base, used, fuel - 1);
    }
  }

  lemma {:induction false} ExpandTopRefFree(key: Option<string>, loader: Loader, cache: Cache, stub: Json, schema: Json,
                                           t: Target, base: string, used: seq<string>, fuel: nat)
    requires fuel >= 1 && key != Some("$ref") && TopRefFree(stub) && stub.Object?
    requires Expand(key, loader, cache, stub, schema, t, base, used, fuel).outcome.Done?
    ensures TopRefFree(Expand(key, loader, cache, stub, schema, t, base, used, fuel).value)
    decreases fuel, 0
  {
    if t.reference !in used {
      var less := fuel - 1;
      var sub := Resolve(key, loader, cache, schema, t.location, used + [t.reference], less);
      ResolvedTopRefFree(key, loader, cache, schema, t.location, used + [t.reference], less);
      var w := Substitute(key, sub.value, stub);
      assert TopRefFree(w);
      VisitKeepsKeys(key, loader, sub.cache, w, base, used, less);
    }
  }

  /**
    The main guarantee: resolving a document from the top (no reference in
    progress) that succeeds leaves no `$ref` anywhere in it, unless the
    reference key is itself `$ref`.
   */
  lemma {:induction false} ResolvedIsRefFree(key: Option<string>, loader: Loader, cache: Cache, v: Json, id: string,
                                            fuel: nat)
    requires key != Some("$ref")
    requires Resolve(key, loader, cache, v, id, [], fuel).outcome.Done?
    ensures NoRefs(Resolve(key, loader, cache, v, id, [], fuel).value)
    decreases fuel, 2
  {
    var base := BaseOf(v, id);
    if v.Object? && Get(v.members, "$ref").Some? {
      var reference := Get(v.members, "$ref").value;
      var stub := Object(Remove(v.members, "$ref"));
      if reference.String? {
        RefBranchRefFree(key, loader, cache, stub, reference.s, base, fuel);
      } else {
        VisitRefFree(key, loader, cache, stub, base, fuel - 1);
      }
    } else {
      VisitRefFree(key, loader, cache, v, base, fuel - 1);
    }
  }

  lemma {:induction false} RefBranchRefFree(key: Option<string>, loader: Loader, cache: Cache, stub: Json, reference: string,
                                           base: string, fuel: nat)
    requires fuel >= 1 && key != Some("$ref") && stub.Object? && TopRefFree(stub)
    requires ResolveRef(key, loader, cache, stub, reference, base, [], fuel).outcome.Done?
    ensures NoRefs(ResolveRef(key, loader, cache, stub, reference, base, [], fuel).value)
    decreases fuel, 1
  {
    var t := Locate(base, reference).value;
    var retrieved := Retrieve(cache, loader, t.location);
    var schema := Select(retrieved.1.value, t.fragment).value;
    ExpandRefFree(key, loader, retrieved.0, stub, schema, t, base, fuel);
  }

  lemma {:induction false} ExpandRefFree(key: Option<string>, loader: Loader, cache: Cache, stub: Json, schema: Json,
                                        t: Target, base: string, fuel: nat)
    requires fuel >= 1 && key != Some("$ref") && stub.Object? && TopRefFree(stub)
    requires Expand(key, loader, cache, stub, schema, t, base, [], fuel).outcome.Done?
    ensures NoRefs(Expand(key, loader, cache, stub, schema, t, base, [], fuel).value)
    decreases fuel, 0
  {
    var less := fuel - 1;
    var sub := Resolve(key, loader, cache, schema, t.location, [] + [t.reference], less);
    ResolvedTopRefFree(key, loader, cache, schema, t.location, [] + [t.reference], less);
    VisitRefFree(key, loader, sub.cache, Substitute(key, sub.value, stub), base, less);
  }

  lemma {:induction false} VisitRefFree(key: Option<string>, loader: Loader, cache: Cache, w: Json, base: string, fuel: nat)
    requires key != Some("$ref") && TopRefFree(w)
    requires Visit(key, loader, cache, w, base, [], fuel).outcome.Done?
    ensures NoRefs(Visit(key, loader, cache, w, base, [], fuel).value)
    decreases fuel, ChildCount(w) + 3
  {
    match w
    case Object(ms) =>
      MembersKeepKeys(key, loader, cache, ms, base, [], fuel);
      MembersRefFree(key, loader, cache, ms, base, fuel);
    case Array(items) =>
      ItemsRefFree(key, loader, cache, items, base, fuel);
    case _ =>
  }

  lemma {:induction false} MembersRefFree(key: Option<string>, loader: Loader, cache: Cache, ms: Members, base: string, fuel: nat)
    requires key != Some("$ref")
    requires ResolveMembers(key, loader, cache, ms, base, [], fuel).outcome.Done?
    ensures var r := ResolveMembers(key, loader, cache, ms, base, [], fuel).value;
      forall i :: 0 <= i < |r| ==> NoRefs(r[i].1)
    decreases fuel, |ms| + 2
  {
    if ms != [] {
      var head := Resolve(key, loader, cache, ms[0].1, base, [], fuel);
      ResolvedIsRefFree(key, loader, cache, ms[0].1, base, fuel);
      MembersRefFree(key, loader, head.cache, ms[1..], base, fuel);
    }
  }

  lemma {:induction false} ItemsRefFree(key: Option<string>, loader: Loader, cache: Cache, items: seq<Json>, base: string,
                                       fuel: nat)
    requires key != Some("$ref")
    requires ResolveItems(key, loader, cache, items, base, [], fuel).outcome.Done?
    ensures var r := ResolveItems(key, loader, cache, items, base, [], fuel).value;
      forall i :: 0 <= i < |r| ==> NoRefs(r[i])
    decreases fuel, |items| + 2
  {
    if items != [] {
      var head := Resolve(key, loader, cache, items[0], base, [], fuel);
      ResolvedIsRefFree(key, loader, cache, items[0], base, fuel);
      ItemsRefFree(key, loader, head.cache, items[1..], base, fuel);
    }
  }
}

module CacheProperties {
  import opened Wrappers
  import opened Json
  import opened Resolver

  /**
    `after` keeps every entry of `before` as it was, and every entry it adds
    is a document the loader supplied for that location.
   */
  predicate Extends(loader: Loader, before: Cache, after: Cache)
  {
    (forall k :: k in before ==> k in after && after[k] == before[k]) &&
    (forall k :: k in after && k !in before ==> k in loader && loader[k] == Fetched(after[k]))
  }

  lemma ExtendsTransitive(loader: Loader, c0: Cache, c1: Cache, c2: Cache)
    requires Extends(loader, c0, c1) && Extends(loader, c1, c2)
    ensures Extends(loader, c0, c2)
  {
  }

  /** Retrieving a document never overwrites what is cached; a miss caches the loaded document. */
  lemma RetrieveExtends(cache: Cache, loader: Loader, location: string)
    ensures Extends(loader, cache, Retrieve(cache, loader, location).0)
  {
  }

  /** However a resolution ends, the cache it leaves extends the one it started with. */
  lemma {:induction false} ResolveExtends(key: Option<string>, loader: Loader, cache: Cache, v: Json, id: string,
                                         used: seq<string>, fuel: nat)
    ensures Extends(loader, cache, Resolve(key, loader, cache, v, id, used, fuel).cache)
    decreases fuel, 2
  {
    if fuel > 0 {
      var base := BaseOf(v, id);
      if v.Object? && Get(v.members, "$ref").Some? {
        var reference := Get(v.members, "$ref").value;
        var stub := Object(Remove(v.members, "$ref"));
        if reference.String? {
          RefExtends(key, loader, cache, stub, reference.s, base, used, fuel);
        } else {
          VisitExtends(key, loader, cache, stub, base, used, fuel - 1);
        }
      } else {
        VisitExtends(key, loader, cache, v, base, used, fuel - 1);
      }
    }
  }

  lemma {:induction false} RefExtends(key: Option<string>, loader: Loader, cache: Cache, stub: Json, reference: string,
                                     base: string, used: seq<string>, fuel: nat)
    requires fuel >= 1
    ensures Extends(loader, cache, ResolveRef(key, loader, cache, stub, reference, base, used, fuel).cache)
    decreases fuel, 1
  {
    var located := Locate(base, reference);
    if located.Ok? {
      var t := located.value;
      var retrieved := Retrieve(cache, loader, t.location);
      RetrieveExtends(cache, loader, t.location);
      if retrieved.1.Ok? && Select(retrieved.1.value, t.fragment).Some? {
        var schema := Select(retrieved.1.value, t.fragment).value;
        ExpandExtends(key, loader, retrieved.0, stub, schema, t, base, used, fuel);
        ExtendsTransitive(loader, cache, retrieved.0,
                          Expand(key, loader, retrieved.0, stub, schema, t, base, used, fuel).cache);
      }
    }
  }

  lemma {:induction false} ExpandExtends(key: Option<string>, loader: Loader, cache: Cache, stub: Json, schema: Json,
                                        t: Target, base: string, used: seq<string>, fuel: nat)
    requires fuel >= 1
    ensures Extends(loader, cache, Expand(key, loader, cache, stub, schema, t, base, used, fuel).cache)
    decreases fuel, 0
  {
    if t.reference !in used {
      var sub := Resolve(key, loader, cache, schema, t.location, used + [t.reference], fuel - 1);
      ResolveExtends(key, loader, cache, schema, t.location, used + [t.reference], fuel - 1);
      if sub.outcome.Done? {
        var w := Substitute(key, sub.value, stub);
        VisitExtends(key, loader, sub.cache, w, base, used, fuel - 1);
        ExtendsTransitive(loader, cache, sub.cache, Visit(key, loader, sub.cache, w, base, used, fuel - 1).cache);
      }
    }
  }

  lemma {:induction false} VisitExtends(key: Option<string>, loader: Loader, cache: Cache, v: Json, base: string,
                                       used: seq<string>, fuel: nat)
    ensures Extends(loader, cache, Visit(key, loader, cache, v, base, used, fuel).cache)
    decreases fuel, ChildCount(v) + 3
  {
    match v
    case Object(ms) => MembersExtends(key, loader, cache, ms, base, used, fuel);
    case Array(items) => ItemsExtends(key, loader, cache, items, base, used, fuel);
    case _ =>
  }

  lemma {:induction false} MembersExtends(key: Option<string>, loader: Loader, cache: Cache, ms: Members, base: string,
                                         used: seq<string>, fuel: nat)
    ensures Extends(loader, cache, ResolveMembers(key, loader, cache, ms, base, used, fuel).cache)
    decreases fuel, |ms| + 2
  {
    if ms != [] {
      var head := Resolve(key, loader, cache, ms[0].1, base, used, fuel);
      ResolveExtends(key, loader, cache, ms[0].1, base, used, fuel);
      if head.outcome.Done? {
        MembersExtends(key, loader, head.cache, ms[1..], base, used, fuel);
        ExtendsTransitive(loader, cache, head.cache, ResolveMembers(key, loader, head.cache, ms[1..], base, used, fuel).cache);
      }
    }
  }

  lemma {:induction false} ItemsExtends(key: Option<string>, loader: Loader, cache: Cache, items: seq<Json>, base: string,
                                       used: seq<string>, fuel: nat)
    ensures Extends(loader, cache, ResolveItems(key, loader, cache, items, base, used, fuel).cache)
    decreases fuel, |items| + 2
  {
    if items != [] {
      var head := Resolve(key, loader, cache, items[0], base, used, fuel);
      ResolveExtends(key, loader, cache, items[0], base, used, fuel);
      if head.outcome.Done? {
        ItemsExtends(key, loader, head.cache, items[1..], base, used, fuel);
        ExtendsTransitive(loader, cache, head.cache, ResolveItems(key, loader, head.cache, items[1..], base, used, fuel).cache);
      }
    }
  }
}

module ReferenceProperties {
  import opened Wrappers
  import opened Json
  import Pointer
  import Uri
  import opened Resolver
  import ResolverProperties

  /** A fragment-only reference against an absolute base without fragment stays in the base document. */
  lemma LocateFragment(u: string, fragment: string)
    requires Uri.ParseAbsolute(u).Some? && Uri.ParseAbsolute(u).value.fragment.None?
    ensures Locate(u, "#" + fragment) == Ok(Target(u, u + "#" + fragment, Some(fragment)))
  {
    var b := Uri.ParseAbsolute(u).value;
    Uri.JoinFragmentOnly(b, fragment);
    var t := b.(fragment := Some(fragment));
    assert Uri.WithoutFragment(t) == b;
    Uri.RecomposeWithoutFragment(t);
    assert Uri.FragmentText(t.fragment) == "#" + fragment;
    Regroup(u, "#", fragment);
  }

  /**
    What substitution makes of a node: without a reference key, or when the
    resolved content is not an object, exactly the content; otherwise the
    content's members plus the reference key holding what the node was.
   */
  lemma SubstituteShape(key: Option<string>, content: Json, previous: Json)
    ensures key.None? || !content.Object? ==> Substitute(key, content, previous) == content
    ensures key.Some? && content.Object? ==>
      var r := Substitute(key, content, previous);
      r.Object? && Get(r.members, key.value) == Some(previous) &&
      Keys(r.members) == Keys(content.members) + {key.value} &&
      forall k :: k != key.value ==> Get(r.members, k) == Get(content.members, k)
  {
  }

  /** A string `$id` on a node decides its base: the inherited one does not matter. */
  lemma IdOverridesBase(key: Option<string>, loader: Loader, cache: Cache, v: Json, id1: string, id2: string,
                        used: seq<string>, fuel: nat)
    requires v.Object? && Get(v.members, "$id").Some? && Get(v.members, "$id").value.String?
    ensures Resolve(key, loader, cache, v, id1, used, fuel) == Resolve(key, loader, cache, v, id2, used, fuel)
  {
  }

  /** A `$ref` that is not a string is dropped without being followed; the other keys are all kept. */
  lemma NonStringRefDropped(key: Option<string>, loader: Loader, cache: Cache, ms: Members, id: string,
                            used: seq<string>, fuel: nat)
    requires fuel >= 1 && Get(ms, "$ref").Some? && !Get(ms, "$ref").value.String?
    ensures var r := Resolve(key, loader, cache, Object(ms), id, used, fuel);
      r == Visit(key, loader, cache, Object(Remove(ms, "$ref")), BaseOf(Object(ms), id), used, fuel - 1) &&
      r.value.Object? && Keys(r.value.members) == Keys(ms) - {"$ref"}
  {
    ResolverProperties.VisitKeepsKeys(key, loader, cache, Object(Remove(ms, "$ref")), BaseOf(Object(ms), id), used, fuel - 1);
  }

  /** A node with a string `$ref` goes to the reference branch with the `$ref` removed. */
  lemma ReferenceBranch(key: Option<string>, loader: Loader, cache: Cache, ms: Members, id: string,
                        used: seq<string>, fuel: nat)
    requires fuel >= 1 && Get(ms, "$ref").Some? && Get(ms, "$ref").value.String?
    ensures Resolve(key, loader, cache, Object(ms), id, used, fuel)
         == ResolveRef(key, loader, cache, Object(Remove(ms, "$ref")), Get(ms, "$ref").value.s,
                       BaseOf(Object(ms), id), used, fuel)
  {
  }

  /** Once the reference is located, fetched and pointed into, what is left is its expansion. */
  lemma ReferenceFound(key: Option<string>, loader: Loader, cache: Cache, stub: Json, reference: string, base: string,
                       used: seq<string>, fuel: nat)
    requires fuel >= 1
    requires var l := Locate(base, reference);
      l.Ok? && Retrieve(cache, loader, l.value.location).1.Ok? &&
      Select(Retrieve(cache, loader, l.value.location).1.value, l.value.fragment).Some?
    ensures var t := Locate(base, reference).value;
      var retrieved := Retrieve(cache, loader, t.location);
      ResolveRef(key, loader, cache, stub, reference, base, used, fuel)
        == Expand(key, loader, retrieved.0, stub, Select(retrieved.1.value, t.fragment).value, t, base, used, fuel)
  {
  }

  /** A reference not yet in progress whose resolution succeeds is substituted and its result visited. */
  lemma ExpandResolves(key: Option<string>, loader: Loader, cache: Cache, stub: Json, schema: Json, t: Target,
                       base: string, used: seq<string>, fuel: nat, less: nat, resolved: Json, cache1: Cache)
    requires fuel == less + 1 && t.reference !in used
    requires Resolve(key, loader, cache, schema, t.location, used + [t.reference], less) == Step(resolved, cache1, Done)
    ensures Expand(key, loader, cache, stub, schema, t, base, used, fuel)
         == Visit(key, loader, cache1, Substitute(key, resolved, stub), base, used, less)
  {
    var sub := Resolve(key, loader, cache, schema, t.location, used + [t.reference], less);
    assert !sub.outcome.Failed?;
  }

  /** An object whose first child fails fails in the same way. */
  lemma HeadFailure(key: Option<string>, loader: Loader, cache: Cache, w: Json, base: string,
                    used: seq<string>, fuel: nat)
    requires w.Object? && w.members != []
    requires Resolve(key, loader, cache, w.members[0].1, base, used, fuel).outcome.Failed?
    ensures Visit(key, loader, cache, w, base, used, fuel).outcome
         == Resolve(key, loader, cache, w.members[0].1, base, used, fuel).outcome
  {
  }

  /**
    A reference already being resolved on the path is cut: the node loses its
    `$ref` and nothing else, its children are not visited, and it succeeds.
    The located document is still fetched and cached, and its pointer checked, first.
   */
  lemma CycleCut(key: Option<string>, loader: Loader, cache: Cache, ms: Members, id: string, used: seq<string>, fuel: nat)
    requires fuel >= 1 && Get(ms, "$ref").Some? && Get(ms, "$ref").value.String?
    requires var l := Locate(BaseOf(Object(ms), id), Get(ms, "$ref").value.s);
      l.Ok? && l.value.reference in used &&
      Retrieve(cache, loader, l.value.location).1.Ok? &&
      Select(Retrieve(cache, loader, l.value.location).1.value, l.value.fragment).Some?
    ensures var l := Locate(BaseOf(Object(ms), id), Get(ms, "$ref").value.s);
      Resolve(key, loader, cache, Object(ms), id, used, fuel)
        == Step(Object(Remove(ms, "$ref")), Retrieve(cache, loader, l.value.location).0, Done)
  {
    var base := BaseOf(Object(ms), id);
    var reference := Get(ms, "$ref").value.s;
    var stub := Object(Remove(ms, "$ref"));
    ReferenceBranch(key, loader, cache, ms, id, used, fuel);
    var t := Locate(base, reference).value;
    var retrieved := Retrieve(cache, loader, t.location);
    ReferenceFound(key, loader, cache, stub, reference, base, used, fuel);
  }

  /**
    A pointer that finds nothing is an error whether or not the reference is
    already being resolved: the pointer is checked before the cycle.
   */
  lemma PointerMissing(key: Option<string>, loader: Loader, cache: Cache, ms: Members, id: string,
                       used: seq<string>, fuel: nat)
    requires fuel >= 1 && Get(ms, "$ref").Some? && Get(ms, "$ref").value.String?
    requires var l := Locate(BaseOf(Object(ms), id), Get(ms, "$ref").value.s);
      l.Ok? && Retrieve(cache, loader, l.value.location).1.Ok? &&
      Select(Retrieve(cache, loader, l.value.location).1.value, l.value.fragment).None?
    ensures var reference := Get(ms, "$ref").value.s;
      var l := Locate(BaseOf(Object(ms), id), reference);
      Resolve(key, loader, cache, Object(ms), id, used, fuel)
        == Step(Object(Remove(ms, "$ref")), Retrieve(cache, loader, l.value.location).0,
                Failed(JsonPointerNotFound(reference, l.value.fragment.value)))
  {
  }

  /**
    A node with a string `$ref` whose target is already cached and found by
    its pointer is its expansion. (Stated over named parts so that callers can
    supply each fact as it is.)
   */
  lemma ReferenceExpands(key: Option<string>, loader: Loader, cache: Cache, v: Json, id: string, used: seq<string>,
                         fuel: nat, stub: Json, reference: string, base: string, t: Target, schema: Json)
    requires fuel >= 1 && v.Object?
    requires Get(v.members, "$ref") == Some(String(reference)) && BaseOf(v, id) == base &&
             Object(Remove(v.members, "$ref")) == stub
    requires Locate(base, reference) == Ok(t)
    requires t.location in cache && Select(cache[t.location], t.fragment) == Some(schema)
    ensures Resolve(key, loader, cache, v, id, used, fuel) == Expand(key, loader, cache, stub, schema, t, base, used, fuel)
  {
    ReferenceBranch(key, loader, cache, v.members, id, used, fuel);
    ReferenceFound(key, loader, cache, stub, reference, base, used, fuel);
  }

  /**
    The same node when its target location is not cached yet: the document
    loaded from it is cached before the expansion.
   */
  lemma ReferenceFetches(key: Option<string>, loader: Loader, cache: Cache, v: Json, id: string, used: seq<string>,
                         fuel: nat, stub: Json, reference: string, base: string, t: Target, doc: Json, schema: Json)
    requires fuel >= 1 && v.Object?
    requires Get(v.members, "$ref") == Some(String(reference)) && BaseOf(v, id) == base &&
             Object(Remove(v.members, "$ref")) == stub
    requires Locate(base, reference) == Ok(t)
    requires t.location !in cache && Load(loader, t.location) == Ok(doc) && Select(doc, t.fragment) == Some(schema)
    ensures Resolve(key, loader, cache, v, id, used, fuel)
         == Expand(key, loader, cache[t.location := doc], stub, schema, t, base, used, fuel)
  {
    assert Retrieve(cache, loader, t.location) == (cache[t.location := doc], Ok(doc));
    ReferenceBranch(key, loader, cache, v.members, id, used, fuel);
    ReferenceFound(key, loader, cache, stub, reference, base, used, fuel);
  }

  /** The same node, when its reference is already in progress, is cut to its stub. */
  lemma ReferenceCut(key: Option<string>, loader: Loader, cache: Cache, v: Json, id: string, used: seq<string>,
                     fuel: nat, stub: Json, reference: string, base: string, t: Target, schema: Json)
    requires fuel >= 1 && v.Object?
    requires Get(v.members, "$ref") == Some(String(reference)) && BaseOf(v, id) == base &&
             Object(Remove(v.members, "$ref")) == stub
    requires Locate(base, reference) == Ok(t)
    requires t.location in cache && Select(cache[t.location], t.fragment) == Some(schema)
    requires t.reference in used
    ensures Resolve(key, loader, cache, v, id, used, fuel) == Step(stub, cache, Done)
  {
    ReferenceExpands(key, loader, cache, v, id, used, fuel, stub, reference, base, t, schema);
  }

  // ---------------------------------------------------------------------------
  // A document whose resolution never ends
  // ---------------------------------------------------------------------------

  /** `{"$ref": "#"}` */
  function SelfRef(): Json
  {
    Object([("$ref", String("#"))])
  }

  /** `{"$ref": "#", "b": {"$ref": "#"}}` */
  function Unrolling(): Json
  {
    Object([("$ref", String("#")), ("b", SelfRef())])
  }

  /** The cut copy of `Unrolling()`: `{"b": {"$ref": "#"}}`. */
  function UnrollingStub(): Json
  {
    Object([("b", SelfRef())])
  }

  /** Both nodes hold the reference "#" and no `$id`, and lose only the reference. */
  lemma Shapes(u: string)
    ensures Get(SelfRef().members, "$ref") == Some(String("#")) && BaseOf(SelfRef(), u) == u &&
            Object(Remove(SelfRef().members, "$ref")) == Object([])
    ensures Get(Unrolling().members, "$ref") == Some(String("#")) && BaseOf(Unrolling(), u) == u &&
            Object(Remove(Unrolling().members, "$ref")) == UnrollingStub()
  {
    assert Remove(Unrolling().members, "$ref") == UnrollingStub().members;
  }

  /** With `Unrolling()` cached at `u`, the reference "#" selects all of it. */
  lemma UnrollingTarget(cache: Cache, u: string)
    requires u in cache && cache[u] == Unrolling()
    ensures Target(u, u + "#", Some("")).location in cache &&
            Select(cache[Target(u, u + "#", Some("")).location], Target(u, u + "#", Some("")).fragment) == Some(Unrolling())
  {
  }

  /** What the reference key adds to the substituted stub leaves the looping child `b` first. */
  lemma UnrollingSubstituted(key: Option<string>, stub: Json)
    requires key.None? || key.value != "b"
    ensures var w := Substitute(key, UnrollingStub(), stub);
      w.Object? && w.members != [] && w.members[0] == ("b", SelfRef())
  {
    if key.Some? {
      assert Remove(UnrollingStub().members, key.value) == UnrollingStub().members;
    }
  }

  /** `{"$ref": "#"}` at `u` expands the whole of `Unrolling()`. */
  lemma SelfRefExpands(key: Option<string>, loader: Loader, cache: Cache, u: string, used: seq<string>, fuel: nat)
    requires Locate(u, "#") == Ok(Target(u, u + "#", Some("")))
    requires u in cache && cache[u] == Unrolling()
    requires fuel >= 1
    ensures Resolve(key, loader, cache, SelfRef(), u, used, fuel)
         == Expand(key, loader, cache, Object([]), Unrolling(), Target(u, u + "#", Some("")), u, used, fuel)
  {
    Shapes(u);
    UnrollingTarget(cache, u);
    ReferenceExpands(key, loader, cache, SelfRef(), u, used, fuel, Object([]), "#", u, Target(u, u + "#", Some("")),
                     Unrolling());
  }

  /** `Unrolling()` at `u` expands itself. */
  lemma UnrollingExpands(key: Option<string>, loader: Loader, cache: Cache, u: string, used: seq<string>, fuel: nat)
    requires Locate(u, "#") == Ok(Target(u, u + "#", Some("")))
    requires u in cache && cache[u] == Unrolling()
    requires fuel >= 1
    ensures Resolve(key, loader, cache, Unrolling(), u, used, fuel)
         == Expand(key, loader, cache, UnrollingStub(), Unrolling(), Target(u, u + "#", Some("")), u, used, fuel)
  {
    Shapes(u);
    UnrollingTarget(cache, u);
    ReferenceExpands(key, loader, cache, Unrolling(), u, used, fuel, UnrollingStub(), "#", u,
                     Target(u, u + "#", Some("")), Unrolling());
  }

  /** Inside its own resolution, `Unrolling()` is cut to `UnrollingStub()`. */
  lemma UnrollingCut(key: Option<string>, loader: Loader, cache: Cache, u: string, used: seq<string>, fuel: nat)
    requires Locate(u, "#") == Ok(Target(u, u + "#", Some("")))
    requires u in cache && cache[u] == Unrolling()
    requires fuel >= 1 && Target(u, u + "#", Some("")).reference in used
    ensures Resolve(key, loader, cache, Unrolling(), u, used, fuel) == Step(UnrollingStub(), cache, Done)
  {
    Shapes(u);
    UnrollingTarget(cache, u);
    ReferenceCut(key, loader, cache, Unrolling(), u, used, fuel, UnrollingStub(), "#", u,
                 Target(u, u + "#", Some("")), Unrolling());
  }

  /**
    Trigger markers, always true: they name the path and fuel at which an
    equation of `UnrollingFacts` is wanted. Each equation is used only where
    a proof asserts its marker, so that the equations cannot unfold one
    another without end.
   */
  ghost predicate SelfRefTrigger(used: seq<string>, f: nat)
  {
    true
  }

  ghost predicate RootTrigger(used: seq<string>, f: nat)
  {
    true
  }

  ghost predicate CutTrigger(used: seq<string>, f: nat)
  {
    true
  }

  /** Where `{"$ref": "#"}` and `Unrolling()` lead once `Unrolling()` is cached at `u`, as equations. */
  ghost predicate UnrollingFacts(key: Option<string>, loader: Loader, cache: Cache, u: string)
  {
    var t := Target(u, u + "#", Some(""));
    (forall used: seq<string>, f: nat {:trigger SelfRefTrigger(used, f)} :: SelfRefTrigger(used, f) && f >= 1 ==>
       Resolve(key, loader, cache, SelfRef(), u, used, f) == Expand(key, loader, cache, Object([]), Unrolling(), t, u, used, f)) &&
    (forall used: seq<string>, f: nat {:trigger RootTrigger(used, f)} :: RootTrigger(used, f) && f >= 1 ==>
       Resolve(key, loader, cache, Unrolling(), u, used, f) == Expand(key, loader, cache, UnrollingStub(), Unrolling(), t, u, used, f)) &&
    (forall used: seq<string>, f: nat {:trigger CutTrigger(used, f)} :: CutTrigger(used, f) && f >= 1 && u + "#" in used ==>
       Resolve(key, loader, cache, Unrolling(), u, used, f) == Step(UnrollingStub(), cache, Done))
  }

  lemma UnrollingFactsHold(key: Option<string>, loader: Loader, cache: Cache, u: string)
    requires Locate(u, "#") == Ok(Target(u, u + "#", Some("")))
    requires u in cache && cache[u] == Unrolling()
    ensures UnrollingFacts(key, loader, cache, u)
  {
    forall used: seq<string>, f: nat | SelfRefTrigger(used, f) && f >= 1
      ensures Resolve(key, loader, cache, SelfRef(), u, used, f)
           == Expand(key, loader, cache, Object([]), Unrolling(), Target(u, u + "#", Some("")), u, used, f)
    {
      SelfRefExpands(key, loader, cache, u, used, f);
    }
    forall used: seq<string>, f: nat | RootTrigger(used, f) && f >= 1
      ensures Resolve(key, loader, cache, Unrolling(), u, used, f)
           == Expand(key, loader, cache, UnrollingStub(), Unrolling(), Target(u, u + "#", Some("")), u, used, f)
    {
      UnrollingExpands(key, loader, cache, u, used, f);
    }
    forall used: seq<string>, f: nat | CutTrigger(used, f) && f >= 1 && u + "#" in used
      ensures Resolve(key, loader, cache, Unrolling(), u, used, f) == Step(UnrollingStub(), cache, Done)
    {
      UnrollingCut(key, loader, cache, u, used, f);
    }
  }

  /**
    What the unrolling proofs assume: the equations of `UnrollingFacts`, a
    reference key other than "b" (which would overwrite the looping child),
    and `#` not yet in progress.
   */
  ghost predicate Unrolls(key: Option<string>, loader: Loader, cache: Cache, u: string, used: seq<string>)
  {
    UnrollingFacts(key, loader, cache, u) && (key.None? || key.value != "b") && u + "#" !in used
  }

  /** With `#` not yet in progress, the expansion of `Unrolling()` cuts its inner copy and visits what it substitutes. */
  lemma ExpansionRevisits(key: Option<string>, loader: Loader, cache: Cache, stub: Json, u: string,
                          used: seq<string>, fuel: nat, less: nat)
    requires Unrolls(key, loader, cache, u, used) && less >= 1 && fuel == less + 1
    ensures Expand(key, loader, cache, stub, Unrolling(), Target(u, u + "#", Some("")), u, used, fuel)
         == Visit(key, loader, cache, Substitute(key, UnrollingStub(), stub), u, used, less)
  {
    var inner := used + [u + "#"];
    assert inner[|used|] == u + "#";
    assert CutTrigger(inner, less);
    ExpandResolves(key, loader, cache, stub, Unrolling(), Target(u, u + "#", Some("")), u, used, fuel, less,
                   UnrollingStub(), cache);
  }

  /** The substituted stub is visited by resolving its first child `{"$ref": "#"}` again. */
  lemma RevisitFails(key: Option<string>, loader: Loader, cache: Cache, stub: Json, u: string, used: seq<string>, fuel: nat)
    requires key.None? || key.value != "b"
    requires Resolve(key, loader, cache, SelfRef(), u, used, fuel).outcome == Failed(DepthExceeded)
    ensures Visit(key, loader, cache, Substitute(key, UnrollingStub(), stub), u, used, fuel).outcome == Failed(DepthExceeded)
  {
    UnrollingSubstituted(key, stub);
    HeadFailure(key, loader, cache, Substitute(key, UnrollingStub(), stub), u, used, fuel);
  }

  /** With one unit of fuel, the expansion of `Unrolling()` has none left for the inner copy. */
  lemma ExpansionStarves(key: Option<string>, loader: Loader, cache: Cache, stub: Json, u: string, used: seq<string>)
    requires u + "#" !in used
    ensures Expand(key, loader, cache, stub, Unrolling(), Target(u, u + "#", Some("")), u, used, 1).outcome
         == Failed(DepthExceeded)
  {
  }

  /**
    With more fuel, the expansion of `Unrolling()` fails once resolving
    `{"$ref": "#"}` with one unit less does. (The smaller amount is a
    parameter of its own: `fuel - 1` inside the resolution terms makes the
    proof search far costlier.)
   */
  lemma ExpansionFails(key: Option<string>, loader: Loader, cache: Cache, stub: Json, u: string, used: seq<string>,
                       fuel: nat, less: nat)
    requires Unrolls(key, loader, cache, u, used) && less >= 1 && fuel == less + 1
    requires Resolve(key, loader, cache, SelfRef(), u, used, less).outcome == Failed(DepthExceeded)
    ensures Expand(key, loader, cache, stub, Unrolling(), Target(u, u + "#", Some("")), u, used, fuel).outcome
         == Failed(DepthExceeded)
  {
    ExpansionRevisits(key, loader, cache, stub, u, used, fuel, less);
    RevisitFails(key, loader, cache, stub, u, used, less);
  }

  /**
    Each visit of the child `{"$ref": "#"}` resolves `#` afresh, which is cut
    to a stub whose own child is that same `{"$ref": "#"}`: given any amount
    of fuel, the visit runs out of it.
   */
  lemma {:induction false} SelfRefExhausts(key: Option<string>, loader: Loader, cache: Cache, u: string, used: seq<string>,
                                          fuel: nat)
    requires Unrolls(key, loader, cache, u, used)
    ensures Resolve(key, loader, cache, SelfRef(), u, used, fuel).outcome == Failed(DepthExceeded)
    decreases fuel
  {
    assert SelfRefTrigger(used, fuel);
    if fuel == 1 {
      ExpansionStarves(key, loader, cache, Object([]), u, used);
    } else if fuel >= 2 {
      var less := fuel - 1;
      SelfRefExhausts(key, loader, cache, u, used, less);
      ExpansionFails(key, loader, cache, Object([]), u, used, fuel, less);
    }
  }

  /** The root `Unrolling()`, with nothing in progress, runs out of fuel. */
  lemma RootExhausts(key: Option<string>, loader: Loader, cache: Cache, u: string, fuel: nat)
    requires Unrolls(key, loader, cache, u, [])
    ensures Resolve(key, loader, cache, Unrolling(), u, [], fuel).outcome == Failed(DepthExceeded)
  {
    assert RootTrigger([], fuel);
    if fuel == 1 {
      ExpansionStarves(key, loader, cache, UnrollingStub(), u, []);
    } else if fuel >= 2 {
      var less := fuel - 1;
      SelfRefExhausts(key, loader, cache, u, [], less);
      ExpansionFails(key, loader, cache, UnrollingStub(), u, [], fuel, less);
    }
  }

  /**
    `{"$ref": "#", "b": {"$ref": "#"}}` as a whole document never finishes
    resolving: whatever the fuel, it runs out. The cycle check cuts the inner
    copy of the root, but the cut copy's child is revisited with the outer,
    empty set of references in progress, and so without end.
   */
  lemma UnrollingNeverEnds(key: Option<string>, loader: Loader, cache: Cache, u: string, fuel: nat)
    requires Uri.ParseAbsolute(u).Some? && Uri.ParseAbsolute(u).value.fragment.None?
    requires key.None? || key.value != "b"
    ensures Resolve(key, loader, cache[u := Unrolling()], Unrolling(), u, [], fuel).outcome == Failed(DepthExceeded)
  {
    LocateFragment(u, "");
    assert "#" + "" == "#" && u + "#" + "" == u + "#";
    UnrollingFactsHold(key, loader, cache[u := Unrolling()], u);
    assert u + "#" !in [];
    RootExhausts(key, loader, cache[u := Unrolling()], u, fuel);
  }
}
