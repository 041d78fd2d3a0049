/** What may leave an event's payload (agent_run_repository.go): forbidden keys
    and everything nested too deep are dropped. A Go []map[string]any and an
    []any of maps are sanitized alike, so both are Arr. */
module Sanitizer {
  import opened Wrappers

  datatype Json =
    | Text(text: string)
    | Scalar(printed: string)           // a number, a boolean or null
    | Arr(items: seq<Json>)
    | Obj(fields: map<string, Json>)

  type Fields = map<string, Json>

  const MAX_DEPTH := 6

  // ---------- keys ----------

  predicate Space(c: char) {
    c == ' ' || c == '\t' || c == '\n' || c == '\r' || c == '\U{0B}' || c == '\U{0C}'
  }

  function TrimLeft(s: string): string {
    if s != "" && Space(s[0]) then TrimLeft(s[1..]) else s
  }

  function TrimRight(s: string): string {
    if s != "" && Space(s[|s| - 1]) then TrimRight(s[..|s| - 1]) else s
  }

  function Lower(c: char): char {
    if 'A' <= c <= 'Z' then (c as int + 32) as char else c
  }

  /** Lower-cased, and without the two separators. */
  function Squeezed(s: string): string {
    if s == "" then ""
    else if s[0] == '_' || s[0] == '-' then Squeezed(s[1..])
    else [Lower(s[0])] + Squeezed(s[1..])
  }

  function NormalKey(key: string): string {
    Squeezed(TrimRight(TrimLeft(key)))
  }

  const FORBIDDEN_CONTENT := ["content", "text", "snippet", "summary", "evidence", "excerpt", "embedding", "prompt"]
  const FORBIDDEN_INPUT := ["sessionkey", "openclawsessionkey", "realpath", "rootpath", "providerbody", "toolargs", "args", "query", "rawplan"]
  const FORBIDDEN_RUNTIME := ["hostendpoint", "runtimehostid", "runtimeinstanceid", "reservationid", "dispatchid", "runticket",
                              "jti", "leasetoken", "leasetokenhash", "fencingtoken", "authpoolid", "errorstack", "stacktrace"]

  /** forbiddenAgentEventKey */
  predicate Forbidden(key: string) {
    NormalKey(key) in FORBIDDEN_CONTENT || NormalKey(key) in FORBIDDEN_INPUT || NormalKey(key) in FORBIDDEN_RUNTIME
  }

  lemma {:induction false} SqueezedConcat(a: string, b: string)
    ensures Squeezed(a + b) == Squeezed(a) + Squeezed(b)
  {
    if a == "" {
      assert a + b == b;
    } else {
      SqueezedConcat(a[1..], b);
      assert (a + b)[1..] == a[1..] + b;
    }
  }

  lemma Untrimmed(s: string)
    requires s != "" && !Space(s[0]) && !Space(s[|s| - 1])
    ensures NormalKey(s) == Squeezed(s)
  {
  }

  lemma SqueezedSeparator(a: string, sep: char, b: string)
    requires sep == '_' || sep == '-'
    ensures Squeezed(a + [sep] + b) == Squeezed(a + b)
  {
    SqueezedConcat(a, b);
    SqueezedConcat(a, [sep] + b);
    assert a + [sep] + b == a + ([sep] + b);
    assert ([sep] + b)[1..] == b;
  }

  /** A separator anywhere inside a key does not let it through. */
  lemma SeparatorsDoNotHide(a: string, sep: char, b: string)
    requires a != "" && b != "" && !Space(a[0]) && !Space(b[|b| - 1]) && (sep == '_' || sep == '-')
    ensures NormalKey(a + [sep] + b) == NormalKey(a + b)
  {
    var whole, split := a + b, a + [sep] + b;
    assert whole[0] == split[0] == a[0] && whole[|whole| - 1] == split[|split| - 1] == b[|b| - 1];
    Untrimmed(whole);
    Untrimmed(split);
    SqueezedSeparator(a, sep, b);
  }

  // ---------- values ----------

  /** Which keys to drop; the source fixes this to Forbidden. */
  type KeyTest = string -> bool

  /** sanitizeAgentEventMap */
  function Sanitize(drop: KeyTest, m: Fields, depth: nat): Fields
    decreases Obj(m), 0
  {
    if depth > MAX_DEPTH then map[]
    else map k | k in m && !drop(k) && SanitizeValue(drop, m[k], depth + 1).Some? :: SanitizeValue(drop, m[k], depth + 1).value
  }

  /** sanitizeAgentEventValue */
  function SanitizeValue(drop: KeyTest, v: Json, depth: nat): Option<Json>
    decreases v, 1
  {
    if depth > MAX_DEPTH then None
    else match v
      case Obj(m) => Some(Obj(Sanitize(drop, m, depth)))
      case Arr(items) => Some(Arr(SanitizeItems(drop, items, depth)))
      case _ => Some(v)
  }

  function SanitizeItems(drop: KeyTest, items: seq<Json>, depth: nat): seq<Json>
    decreases items, 1
  {
    if items == [] then []
    else
      var first := SanitizeValue(drop, items[0], depth);
      (if first.Some? then [first.value] else []) + SanitizeItems(drop, items[1..], depth)
  }

  // ---------- what sanitizing guarantees ----------

  /** No forbidden key at any depth. */
  predicate Clean(drop: KeyTest, v: Json) {
    match v
    case Obj(m) => forall k :: k in m ==> !drop(k) && Clean(drop, m[k])
    case Arr(items) => forall i :: 0 <= i < |items| ==> Clean(drop, items[i])
    case _ => true
  }

  /** Every value lies inside at most MAX_DEPTH objects; arrays do not count. */
  predicate Shallow(v: Json, depth: nat) {
    && depth <= MAX_DEPTH
    && match v
       case Obj(m) => forall k :: k in m ==> Shallow(m[k], depth + 1)
       case Arr(items) => forall i :: 0 <= i < |items| ==> Shallow(items[i], depth)
       case _ => true
  }

  /** The result has no forbidden key and bounded nesting. */
  lemma {:induction false} SanitizedIsClean(drop: KeyTest, v: Json, depth: nat)
    requires depth <= MAX_DEPTH
    ensures SanitizeValue(drop, v, depth).Some?
    ensures Clean(drop, SanitizeValue(drop, v, depth).value) && Shallow(SanitizeValue(drop, v, depth).value, depth)
    decreases v, 1
  {
    match v
    case Obj(m) =>
      var kept := Sanitize(drop, m, depth);
      forall k | k in kept
        ensures !drop(k) && Clean(drop, kept[k]) && Shallow(kept[k], depth + 1)
      {
        assert SanitizeValue(drop, m[k], depth + 1).Some?;
        SanitizedIsClean(drop, m[k], depth + 1);
      }
    case Arr(items) => SanitizedItemsAreClean(drop, items, depth);
    case _ =>
  }

  lemma {:induction false} SanitizedItemsAreClean(drop: KeyTest, items: seq<Json>, depth: nat)
    requires depth <= MAX_DEPTH
    ensures |SanitizeItems(drop, items, depth)| == |items|
    ensures forall i :: 0 <= i < |items| ==> SanitizeValue(drop, items[i], depth) == Some(SanitizeItems(drop, items, depth)[i])
    ensures forall i :: 0 <= i < |items| ==> Clean(drop, SanitizeItems(drop, items, depth)[i]) && Shallow(SanitizeItems(drop, items, depth)[i], depth)
    decreases items, 0
  {
    if items != [] {
      SanitizedIsClean(drop, items[0], depth);
      SanitizedItemsAreClean(drop, items[1..], depth);
    }
  }

  /** Sanitizing leaves exactly the clean and shallow values alone. */
  lemma {:induction false} UnchangedIffClean(drop: KeyTest, v: Json, depth: nat)
    requires depth <= MAX_DEPTH
    ensures SanitizeValue(drop, v, depth) == Some(v) <==> Clean(drop, v) && Shallow(v, depth)
    decreases v, 1
  {
    SanitizedIsClean(drop, v, depth);
    if Clean(drop, v) && Shallow(v, depth) {
      match v
      case Obj(m) =>
        forall k | k in m && depth < MAX_DEPTH
          ensures SanitizeValue(drop, m[k], depth + 1) == Some(m[k])
        {
          UnchangedIffClean(drop, m[k], depth + 1);
        }
        assert forall k :: k in m ==> Shallow(m[k], depth + 1);
        assert Sanitize(drop, m, depth) == m;
      case Arr(items) =>
        SanitizedItemsAreClean(drop, items, depth);
        forall i | 0 <= i < |items|
          ensures SanitizeItems(drop, items, depth)[i] == items[i]
        {
          UnchangedIffClean(drop, items[i], depth);
        }
        assert SanitizeItems(drop, items, depth) == items;
      case _ =>
    }
  }

  /** Sanitizing what was read back changes nothing. */
  lemma Idempotent(drop: KeyTest, m: Fields)
    ensures Sanitize(drop, Sanitize(drop, m, 0), 0) == Sanitize(drop, m, 0)
  {
    SanitizedIsClean(drop, Obj(m), 0);
    UnchangedIffClean(drop, Obj(Sanitize(drop, m, 0)), 0);
  }

  // ---------- and that it drops nothing else ----------

  /** The value at the end of a path of object keys. */
  function At(v: Json, path: seq<string>): Option<Json>
    decreases |path|
  {
    if path == [] then Some(v)
    else if v.Obj? && path[0] in v.fields then At(v.fields[path[0]], path[1..])
    else None
  }

  /** Along object keys, a value survives exactly if no key on its path is forbidden
      and it is not nested too deep; text and scalars survive as they are. */
  lemma {:induction false} SanitizedAt(drop: KeyTest, v: Json, depth: nat, path: seq<string>)
    requires depth <= MAX_DEPTH
    ensures var kept := At(SanitizeValue(drop, v, depth).value, path);
            && SanitizeValue(drop, v, depth).Some?
            && (kept.Some? <==> At(v, path).Some? && depth + |path| <= MAX_DEPTH && forall k :: k in path ==> !drop(k))
            && (kept.Some? ==> kept == SanitizeValue(drop, At(v, path).value, depth + |path|))
    decreases |path|
  {
    if path != [] && v.Obj? && path[0] in v.fields && depth < MAX_DEPTH {
      SanitizedAt(drop, v.fields[path[0]], depth + 1, path[1..]);
      assert path == [path[0]] + path[1..];
    } else if path != [] {
      SanitizedIsClean(drop, v, depth);
      if v.Obj? && path[0] in v.fields {
        assert SanitizeValue(drop, v.fields[path[0]], depth + 1).None?;
      }
    }
  }
}
