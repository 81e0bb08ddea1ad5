/**
  JSON Pointer (RFC 6901, section 4), as `Value::pointer` evaluates it: the
  empty pointer selects the whole document; any other pointer must start with
  '/'; it is split at every '/', each token is unescaped ("~1" becomes "/",
  then "~0" becomes "~"), and the tokens are applied one by one: an object
  selects the member with that key, an array the element whose index the
  token spells in decimal (no sign, no leading zero), anything else fails.
 */
module Pointer {
  import opened Wrappers
  import opened Json

  // ---------------------------------------------------------------------
  // Splitting at '/'

  /** The index of the first '/' in `s`, or `|s|` when there is none. */
  function SlashAt(s: string): (i: nat)
    ensures i <= |s|
    ensures forall j :: 0 <= j < i ==> s[j] != '/'
    ensures i < |s| ==> s[i] == '/'
  {
    if s == [] || s[0] == '/' then 0 else 1 + SlashAt(s[1..])
  }

  /** `s.split('/')`: always at least one part, and no part holds a '/'. */
  function Split(s: string): (parts: seq<string>)
    ensures |parts| >= 1
    ensures forall k :: 0 <= k < |parts| ==> '/' !in parts[k]
    decreases |s|
  {
    var i := SlashAt(s);
    if i == |s| then [s] else [s[..i]] + Split(s[i + 1..])
  }

  /** The inverse of `Split`: the parts glued back with '/'. */
  function JoinSlash(parts: seq<string>): string
    requires |parts| >= 1
  {
    if |parts| == 1 then parts[0] else parts[0] + "/" + JoinSlash(parts[1..])
  }

  lemma {:induction false} SplitJoinSlash(parts: seq<string>)
    requires |parts| >= 1
    requires forall k :: 0 <= k < |parts| ==> '/' !in parts[k]
    ensures Split(JoinSlash(parts)) == parts
  {
    var s := JoinSlash(parts);
    var i := SlashAt(s);
    if |parts| > 1 {
      var tail := JoinSlash(parts[1..]);
      assert s == parts[0] + "/" + tail;
      assert s[|parts[0]|] == '/';
      assert i == |parts[0]|;
      assert s[..i] == parts[0];
      assert s[i + 1..] == tail;
      SplitJoinSlash(parts[1..]);
    }
  }

  // ---------------------------------------------------------------------
  // Escaping of '~' and '/' inside a token

  /** `t.replace("~1", "/")`: left to right, non-overlapping. */
  function ReplaceTildeOne(t: string): string
  {
    if |t| >= 2 && t[0] == '~' && t[1] == '1' then "/" + ReplaceTildeOne(t[2..])
    else if t == [] then []
    else [t[0]] + ReplaceTildeOne(t[1..])
  }

  /** `t.replace("~0", "~")`: left to right, non-overlapping. */
  function ReplaceTildeZero(t: string): string
  {
    if |t| >= 2 && t[0] == '~' && t[1] == '0' then "~" + ReplaceTildeZero(t[2..])
    else if t == [] then []
    else [t[0]] + ReplaceTildeZero(t[1..])
  }

  /** A reference token as the pointer engine reads it. */
  function Unescape(t: string): string
  {
    ReplaceTildeZero(ReplaceTildeOne(t))
  }

  /** The escaping of RFC 6901 section 3: '~' is written "~0", '/' is written "~1". */
  function Escape(t: string): (e: string)
    ensures '/' !in e
  {
    if t == [] then []
    else (if t[0] == '~' then "~0" else if t[0] == '/' then "~1" else [t[0]]) + Escape(t[1..])
  }

  /** A token with neither '~' nor '/' is its own escape. */
  lemma {:induction false} EscapePlain(t: string)
    requires '~' !in t && '/' !in t
    ensures Escape(t) == t
  {
    if t != [] {
      assert t == [t[0]] + t[1..];
      assert forall c :: c in t[1..] ==> c in t;
      EscapePlain(t[1..]);
    }
  }

  /** `Escape` with only '~' escaped: what `ReplaceTildeOne` leaves of an escaped token. */
  function EscapeTilde(t: string): string
  {
    if t == [] then [] else (if t[0] == '~' then "~0" else [t[0]]) + EscapeTilde(t[1..])
  }

  lemma {:induction false} ReplaceTildeOneOfEscape(t: string)
    ensures ReplaceTildeOne(Escape(t)) == EscapeTilde(t)
  {
    if t != [] {
      var rest := Escape(t[1..]);
      ReplaceTildeOneOfEscape(t[1..]);
      if t[0] == '~' {
        var e := "~0" + rest;
        assert Escape(t) == e;
        assert e[1..] == "0" + rest;
        assert ("0" + rest)[1..] == rest;
      } else if t[0] == '/' {
        var e := "~1" + rest;
        assert Escape(t) == e;
        assert e[2..] == rest;
      } else {
        var e := [t[0]] + rest;
        assert Escape(t) == e;
        assert e[1..] == rest;
      }
    }
  }

  lemma {:induction false} ReplaceTildeZeroOfEscapeTilde(t: string)
    ensures ReplaceTildeZero(EscapeTilde(t)) == t
  {
    if t != [] {
      var rest := EscapeTilde(t[1..]);
      ReplaceTildeZeroOfEscapeTilde(t[1..]);
      if t[0] == '~' {
        var e := "~0" + rest;
        assert EscapeTilde(t) == e;
        assert e[2..] == rest;
      } else {
        var e := [t[0]] + rest;
        assert EscapeTilde(t) == e;
        assert e[1..] == rest;
        assert [t[0]] + t[1..] == t;
      }
    }
  }

  /** Unescaping undoes escaping, for every token. */
  lemma UnescapeEscape(t: string)
    ensures Unescape(Escape(t)) == t
  {
    ReplaceTildeOneOfEscape(t);
    ReplaceTildeZeroOfEscapeTilde(t);
  }

  // ---------------------------------------------------------------------
  // Array indices

  predicate IsDigit(c: char) { '0' <= c <= '9' }

  predicate AllDigits(t: string) { forall i :: 0 <= i < |t| ==> IsDigit(t[i]) }

  /** The value of a string of decimal digits. */
  function DecimalValue(t: string): nat
    requires AllDigits(t)
  {
    if t == [] then 0 else DecimalValue(t[..|t| - 1]) * 10 + (t[|t| - 1] as int - '0' as int)
  }

  /** `parse_index`: no '+' sign, no leading zero, then an unsigned decimal number. */
  function ParseIndex(t: string): (r: Option<nat>)
    ensures r.Some? ==> t != [] && AllDigits(t) && (t[0] == '0' ==> t == "0")
  {
    if t == [] || t[0] == '+' || (t[0] == '0' && |t| != 1) then None
    else if AllDigits(t) then Some(DecimalValue(t))
    else None
  }

  /** The canonical decimal spelling of an index. */
  function Decimal(n: nat): (t: string)
    ensures t != [] && AllDigits(t)
  {
    if n < 10 then [(n + '0' as int) as char]
    else Decimal(n / 10) + [((n % 10) + '0' as int) as char]
  }

  lemma {:induction false} DecimalSpelling(n: nat)
    ensures DecimalValue(Decimal(n)) == n
    ensures Decimal(n)[0] == '0' ==> n == 0
    ensures n < 10 <==> |Decimal(n)| == 1
  {
    if n >= 10 {
      var t := Decimal(n);
      DecimalSpelling(n / 10);
      assert t[..|t| - 1] == Decimal(n / 10);
      assert t[0] == Decimal(n / 10)[0];
    }
  }

  /** Every index spelled canonically is read back as itself. */
  lemma ParseIndexDecimal(n: nat)
    ensures ParseIndex(Decimal(n)) == Some(n)
  {
    DecimalSpelling(n);
  }

  // ---------------------------------------------------------------------
  // Evaluation

  /** Applies unescaped reference tokens one by one, starting at `doc`. */
  function Walk(doc: Json, tokens: seq<string>): Option<Json>
  {
    if tokens == [] then Some(doc)
    else match doc
      case Object(ms) =>
        (match Get(ms, tokens[0])
         case Some(child) => Walk(child, tokens[1..])
         case None => None)
      case Array(items) =>
        (match ParseIndex(tokens[0])
         case Some(i) => if i < |items| then Walk(items[i], tokens[1..]) else None
         case None => None)
      case _ => None
  }

  function UnescapeAll(parts: seq<string>): (r: seq<string>)
    ensures |r| == |parts|
    ensures forall k :: 0 <= k < |parts| ==> r[k] == Unescape(parts[k])
  {
    if parts == [] then [] else [Unescape(parts[0])] + UnescapeAll(parts[1..])
  }

  /** `value.pointer(pointer)`. */
  function Lookup(doc: Json, pointer: string): (r: Option<Json>)
    ensures pointer == "" ==> r == Some(doc)
    ensures pointer != "" && pointer[0] != '/' ==> r == None
  {
    if pointer == "" then Some(doc)
    else if pointer[0] != '/' then None
    else Walk(doc, UnescapeAll(Split(pointer[1..])))
  }

  // ---------------------------------------------------------------------
  // Building pointers

  /** The pointer that spells a sequence of reference tokens. */
  function Encode(tokens: seq<string>): string
  {
    if tokens == [] then "" else "/" + Escape(tokens[0]) + Encode(tokens[1..])
  }

  function EscapeAll(tokens: seq<string>): (r: seq<string>)
    ensures |r| == |tokens|
    ensures forall k :: 0 <= k < |tokens| ==> r[k] == Escape(tokens[k])
  {
    if tokens == [] then [] else [Escape(tokens[0])] + EscapeAll(tokens[1..])
  }

  lemma {:induction false} EncodeIsJoin(tokens: seq<string>)
    requires tokens != []
    ensures Encode(tokens) == "/" + JoinSlash(EscapeAll(tokens))
  {
    var es := EscapeAll(tokens);
    if |tokens| > 1 {
      EncodeIsJoin(tokens[1..]);
      assert EscapeAll(tokens[1..]) == es[1..];
    }
  }

  /** A pointer built from reference tokens selects exactly what walking those tokens selects. */
  lemma LookupEncode(doc: Json, tokens: seq<string>)
    ensures Lookup(doc, Encode(tokens)) == Walk(doc, tokens)
  {
    if tokens != [] {
      EncodeIsJoin(tokens);
      var es := EscapeAll(tokens);
      SplitJoinSlash(es);
      var p := Encode(tokens);
      assert p[1..] == JoinSlash(es);
      var us := UnescapeAll(es);
      forall k | 0 <= k < |tokens| ensures us[k] == tokens[k] {
        UnescapeEscape(tokens[k]);
      }
      assert us == tokens;
    }
  }
}
