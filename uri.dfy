/**
  URI references as the reference engine uses them: a string is decomposed
  into scheme, authority, path, query and fragment (RFC 3986, appendix B),
  recomposed (section 5.3), and a reference is resolved against an absolute
  base (section 5.2.2, with the merge of section 5.2.3). Two failures of the
  URL library are kept: a base without a scheme cannot be parsed as a URL,
  and a base whose path is opaque (no authority, path not rooted, as in
  "urn:x") accepts only fragment-only references.
 */
module Uri {
  import opened Wrappers

  datatype Uri = Uri(
    scheme: Option<string>,
    authority: Option<string>,
    path: string,
    query: Option<string>,
    fragment: Option<string>)

  /** The index of the first character of `s` that is in `stops`, or `|s|`. */
  function SpanUntil(s: string, stops: set<char>): (i: nat)
    ensures i <= |s|
    ensures forall j :: 0 <= j < i ==> s[j] !in stops
    ensures i < |s| ==> s[i] in stops
  {
    if s == [] || s[0] in stops then 0 else 1 + SpanUntil(s[1..], stops)
  }

  function SchemeText(scheme: Option<string>): string
  {
    if scheme.Some? then scheme.value + ":" else ""
  }

  function AuthorityText(authority: Option<string>): string
  {
    if authority.Some? then "//" + authority.value else ""
  }

  function QueryText(query: Option<string>): string
  {
    if query.Some? then "?" + query.value else ""
  }

  function FragmentText(fragment: Option<string>): string
  {
    if fragment.Some? then "#" + fragment.value else ""
  }

  /** RFC 3986 section 5.3: the string a decomposed reference stands for. */
  function Recompose(u: Uri): string
  {
    SchemeText(u.scheme) + AuthorityText(u.authority) + u.path + QueryText(u.query) + FragmentText(u.fragment)
  }

  /** `^(([^:/?#]+):)?`: a non-empty run free of ":/?#" ended by ':' is the scheme. */
  function SplitScheme(s: string): (r: (Option<string>, string))
    ensures SchemeText(r.0) + r.1 == s
  {
    var i := SpanUntil(s, {':', '/', '?', '#'});
    if 0 < i < |s| && s[i] == ':' then
      assert s == s[..i] + ":" + s[i + 1..];
      (Some(s[..i]), s[i + 1..])
    else (None, s)
  }

  /** `(//([^/?#]*))?`: the authority follows a leading "//". */
  function SplitAuthority(s: string): (r: (Option<string>, string))
    ensures AuthorityText(r.0) + r.1 == s
  {
    if |s| >= 2 && s[0] == '/' && s[1] == '/' then
      var j := SpanUntil(s[2..], {'/', '?', '#'});
      assert s == "//" + s[2..][..j] + s[2..][j..];
      (Some(s[2..][..j]), s[2..][j..])
    else (None, s)
  }

  /** `(\?([^#]*))?` on what follows the path; what remains is empty or starts with '#'. */
  function SplitQuery(s: string): (r: (Option<string>, string))
    requires s == [] || s[0] in {'?', '#'}
    ensures QueryText(r.0) + r.1 == s
    ensures r.1 == [] || r.1[0] == '#'
  {
    if s != [] && s[0] == '?' then
      var q := SpanUntil(s[1..], {'#'});
      assert s == "?" + s[1..][..q] + s[1..][q..];
      (Some(s[1..][..q]), s[1..][q..])
    else (None, s)
  }

  /** `([^?#]*)`: the path runs up to the query or the fragment. */
  function SplitPath(s: string): (r: (string, string))
    ensures r.0 + r.1 == s
    ensures r.1 == [] || r.1[0] in {'?', '#'}
  {
    var p := SpanUntil(s, {'?', '#'});
    assert s == s[..p] + s[p..];
    (s[..p], s[p..])
  }

  /** `(#(.*))?`: all that follows a '#' is the fragment. */
  function SplitFragment(s: string): (r: Option<string>)
    requires s == [] || s[0] == '#'
    ensures FragmentText(r) == s
  {
    if s == [] then None else assert s == "#" + s[1..]; Some(s[1..])
  }

  /** Appendix B: the decomposition of any string into the five components. */
  function Parse(s: string): Uri
  {
    var afterScheme := SplitScheme(s);
    var afterAuthority := SplitAuthority(afterScheme.1);
    var afterPath := SplitPath(afterAuthority.1);
    var afterQuery := SplitQuery(afterPath.1);
    Uri(afterScheme.0, afterAuthority.0, afterPath.0, afterQuery.0, SplitFragment(afterQuery.1))
  }

  /** Decomposing and recomposing loses nothing. */
  lemma RecomposeParse(s: string)
    ensures Recompose(Parse(s)) == s
  {
    var afterScheme := SplitScheme(s);
    var afterAuthority := SplitAuthority(afterScheme.1);
    var afterPath := SplitPath(afterAuthority.1);
    var afterQuery := SplitQuery(afterPath.1);
    var u := Parse(s);
    Glue(SchemeText(u.scheme), AuthorityText(u.authority), u.path, QueryText(u.query), FragmentText(u.fragment));
  }

  lemma Glue(a: string, b: string, c: string, d: string, e: string)
    ensures a + b + c + d + e == a + (b + (c + (d + e)))
  {
  }

  /** A fragment is split off only at a '#'. */
  lemma FragmentInString(s: string)
    ensures Parse(s).fragment.Some? ==> '#' in s
  {
    RecomposeParse(s);
    var u := Parse(s);
    if u.fragment.Some? {
      var front := SchemeText(u.scheme) + AuthorityText(u.authority) + u.path + QueryText(u.query);
      assert s == front + ("#" + u.fragment.value);
      assert s[|front|] == '#';
    }
  }

  /** A prefix free of `stops` followed by a stop ends the span at the prefix's length. */
  lemma {:induction false} SpanUntilPrefix(s: string, stops: set<char>, prefix: string)
    requires |prefix| < |s| && s[..|prefix|] == prefix && s[|prefix|] in stops
    requires forall j :: 0 <= j < |prefix| ==> prefix[j] !in stops
    ensures SpanUntil(s, stops) == |prefix|
    decreases |prefix|
  {
    if prefix != [] {
      assert s[1..][..|prefix| - 1] == prefix[1..];
      SpanUntilPrefix(s[1..], stops, prefix[1..]);
    }
  }

  /** A string that starts with a scheme and ':' has that scheme. */
  lemma ParseWithScheme(scheme: string, rest: string)
    requires scheme != [] && forall j :: 0 <= j < |scheme| ==> scheme[j] !in {':', '/', '?', '#'}
    ensures Parse(scheme + ":" + rest).scheme == Some(scheme)
  {
    var s := scheme + ":" + rest;
    assert s[..|scheme|] == scheme && s[|scheme|] == ':';
    SpanUntilPrefix(s, {':', '/', '?', '#'}, scheme);
  }

  /** `Url::parse`: only a reference with a scheme is an absolute URL. */
  function ParseAbsolute(s: string): (r: Option<Uri>)
    ensures r.Some? <==> Parse(s).scheme.Some?
    ensures r.Some? ==> Recompose(r.value) == s
  {
    RecomposeParse(s);
    var u := Parse(s);
    if u.scheme.Some? then Some(u) else None
  }

  /** A URL with an opaque path cannot serve as the base of a relative reference. */
  predicate OpaquePath(base: Uri)
  {
    base.authority.None? && (base.path == [] || base.path[0] != '/')
  }

  /** The directory part of a path: everything up to and including its last '/'. */
  function Directory(path: string): (d: string)
    ensures |d| <= |path| && d == path[..|d|]
    ensures d == [] || d[|d| - 1] == '/'
  {
    if path == [] then []
    else if path[|path| - 1] == '/' then path
    else Directory(path[..|path| - 1])
  }

  /** RFC 3986 section 5.2.3. */
  function Merge(base: Uri, path: string): string
  {
    if base.authority.Some? && base.path == [] then "/" + path else Directory(base.path) + path
  }

  function WithoutFragment(u: Uri): (r: Uri)
    ensures r.fragment.None?
  {
    u.(fragment := None)
  }

  /** Dropping the fragment drops exactly its text from the end of the string. */
  lemma RecomposeWithoutFragment(u: Uri)
    ensures Recompose(u) == Recompose(WithoutFragment(u)) + FragmentText(u.fragment)
  {
  }

  /** `base.join(reference)`: RFC 3986 section 5.2.2 without the removal of dot segments. */
  function Join(base: Uri, reference: string): Option<Uri>
  {
    var r := Parse(reference);
    if r.scheme.Some? then Some(r)
    else if OpaquePath(base) && (reference == [] || reference[0] != '#') then None
    else if r.authority.Some? then Some(Uri(base.scheme, r.authority, r.path, r.query, r.fragment))
    else if r.path == [] then
      Some(Uri(base.scheme, base.authority, base.path, if r.query.Some? then r.query else base.query, r.fragment))
    else if r.path[0] == '/' then Some(Uri(base.scheme, base.authority, r.path, r.query, r.fragment))
    else Some(Uri(base.scheme, base.authority, Merge(base, r.path), r.query, r.fragment))
  }

  /** A fragment-only reference keeps everything of the base but its fragment, whatever the base. */
  lemma JoinFragmentOnly(base: Uri, fragment: string)
    ensures Join(base, "#" + fragment) == Some(base.(fragment := Some(fragment)))
  {
    var reference := "#" + fragment;
    assert SpanUntil(reference, {':', '/', '?', '#'}) == 0;
    assert SplitScheme(reference) == (None, reference);
    assert SplitAuthority(reference) == (None, reference);
    assert SpanUntil(reference, {'?', '#'}) == 0;
    assert SplitQuery(reference) == (None, reference);
    assert reference[1..] == fragment;
  }

  /** A reference that carries a scheme replaces the base. */
  lemma JoinAbsolute(base: Uri, reference: string)
    requires Parse(reference).scheme.Some?
    ensures Join(base, reference) == Some(Parse(reference))
    ensures Recompose(Join(base, reference).value) == reference
  {
    RecomposeParse(reference);
  }

  /** Any other reference against an opaque base fails, and against a hierarchical base succeeds. */
  lemma JoinRelative(base: Uri, reference: string)
    requires Parse(reference).scheme.None?
    requires reference == [] || reference[0] != '#'
    ensures Join(base, reference).None? <==> OpaquePath(base)
    ensures Join(base, reference).Some? ==> Join(base, reference).value.scheme == base.scheme
  {
  }
}
