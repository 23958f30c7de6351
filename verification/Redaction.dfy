// Payload trees and their redaction (bottle-tui/internal/model/events.go:261-298).
module Redaction {
  import opened Prelude

  /** A decoded JSON value; numbers are opaque. */
  datatype Value =
    | Null
    | Bool(b: bool)
    | Number(n: int)
    | Text(s: string)
    | List(items: seq<Value>)
    | Object(fields: map<string, Value>)

  const REDACTED := Text("[REDACTED]")

  const SENSITIVE_KEYS: set<string> :=
    {"authorization", "cookie", "password", "secret", "token", "private_key", "privatekey"}

  // ---- Which keys are sensitive ----

  /** Lower-casing as far as it can make a key match an ASCII word: the ASCII letters and
      the two other code points whose lower case is an ASCII letter. */
  function Lower(c: char): char
  {
    if 'A' <= c <= 'Z' then ((c as int) + 32) as char
    else if c == '\U{212A}' then 'k'
    else if c == '\U{0130}' then 'i'
    else if c == '-' then '_'
    else c
  }

  function Normalize(key: string): string
  {
    seq(|key|, i requires 0 <= i < |key| => Lower(key[i]))
  }

  predicate Sensitive(key: string)
  {
    var k := Normalize(key);
    k in SENSITIVE_KEYS || Contains(k, "token") || Contains(k, "secret") || Contains(k, "password")
  }

  /** Neither the case of ASCII letters nor the choice between dash and underscore matters. */
  predicate SameKey(a: string, b: string)
  {
    |a| == |b| && forall i :: 0 <= i < |a| ==> SameLetter(a[i], b[i])
  }

  predicate SameLetter(a: char, b: char)
  {
    || a == b || (a in "-_" && b in "-_")
    || ('A' <= a <= 'Z' && b as int == a as int + 32) || ('A' <= b <= 'Z' && a as int == b as int + 32)
  }

  lemma SpellingDoesNotMatter(a: string, b: string)
    requires SameKey(a, b)
    ensures Sensitive(a) <==> Sensitive(b)
  {
    assert Normalize(a) == Normalize(b);
  }

  /** A key with one of three words anywhere in it is sensitive, and so are four more words. */
  lemma SensitiveInside(before: string, word: string, after: string)
    requires word in ["token", "secret", "password"]
    ensures Sensitive(before + word + after)
  {
    var key, i := before + word + after, |before|;
    var k := Normalize(key);
    assert forall j :: 0 <= j < |word| ==> key[i + j] == word[j];
    assert k[i..i + |word|] == word;
    assert StartsWithAt(k, word, i);
    assert Contains(k, word);
  }

  lemma SensitiveWords(word: string)
    requires word in ["authorization", "cookie", "private_key", "privatekey"]
    ensures Sensitive(word)
  {
    assert Normalize(word) == word;
  }

  /** And no others are, but for their spelling. */
  lemma SensitiveOnly(key: string)
    requires Sensitive(key)
    ensures Normalize(key) in ["authorization", "cookie", "private_key", "privatekey"]
            || exists word, i :: word in ["token", "secret", "password"] && StartsWithAt(Normalize(key), word, i)
  {
    var k := Normalize(key);
    if Contains(k, "token") {
      var i :| 0 <= i <= |k| && StartsWithAt(k, "token", i);
    } else if Contains(k, "secret") {
      var i :| 0 <= i <= |k| && StartsWithAt(k, "secret", i);
    } else if Contains(k, "password") {
      var i :| 0 <= i <= |k| && StartsWithAt(k, "password", i);
    } else if k in {"token", "secret", "password"} {
      assert StartsWithAt(k, k, 0);
    }
  }

  // ---- The two mutually recursive passes ----

  function RedactMap(payload: map<string, Value>): (r: map<string, Value>)
    ensures r.Keys == payload.Keys
    ensures forall k :: k in payload && Sensitive(k) ==> r[k] == REDACTED
    decreases Object(payload)
  {
    map k | k in payload ::
      if Sensitive(k) then REDACTED
      else match payload[k]
        case Object(fields) => Object(RedactMap(fields))
        case List(items) => List(RedactSlice(items))
        case other => other
  }

  /** Only the maps among the elements are rewritten; a list inside a list is kept as it is. */
  function RedactSlice(items: seq<Value>): (r: seq<Value>)
    ensures |r| == |items|
    decreases List(items)
  {
    seq(|items|, i requires 0 <= i < |items| =>
      match items[i]
      case Object(fields) => Object(RedactMap(fields))
      case other => other)
  }

  // ---- What a reader of a redacted payload can find ----

  /** One move from a map: to the value under a key, and on through lists by their indices. */
  datatype Hop = Hop(key: string, indices: seq<nat>)

  function Descend(v: Value, indices: seq<nat>): Option<Value>
    decreases |indices|
  {
    if indices == [] then Some(v)
    else if v.List? && indices[0] < |v.items| then Descend(v.items[indices[0]], indices[1..])
    else None
  }

  function Follow(payload: map<string, Value>, hop: Hop): Option<Value>
  {
    if hop.key in payload then Descend(payload[hop.key], hop.indices) else None
  }

  /** The value at the end of a path whose inner hops all lead to maps. */
  function Lookup(payload: map<string, Value>, path: seq<Hop>): Option<Value>
    decreases |path|
  {
    if path == [] then None
    else
      var v := Follow(payload, path[0]);
      if |path| == 1 then v
      else if v.Some? && v.value.Object? then Lookup(v.value.fields, path[1..])
      else None
  }

  predicate HasSensitive(path: seq<Hop>)
    decreases |path|
  {
    path != [] && (Sensitive(path[0].key) || HasSensitive(path[1..]))
  }

  /** A hop through a list that is directly in a list. */
  predicate Crosses(hop: Hop) { |hop.indices| >= 2 }

  /** The path goes through a list in a list before it comes to a sensitive key. */
  predicate Escapes(path: seq<Hop>)
    decreases |path|
  {
    path != [] && !Sensitive(path[0].key) && (Crosses(path[0]) || Escapes(path[1..]))
  }

  predicate Leaf(v: Value) { !v.Object? && !v.List? }

  /** What one hop finds in a redacted map: the constant and nothing below it under a sensitive
      key; exactly what it found before beyond a list in a list, or in a list that is in a list;
      otherwise the same, with a map redacted in turn and a list redacted one level deep. */
  lemma RedactedHop(payload: map<string, Value>, hop: Hop)
    ensures Follow(RedactMap(payload), hop) ==
            if Follow(payload, hop).None? then None
            else if Sensitive(hop.key) then (if hop.indices == [] then Some(REDACTED) else None)
            else if Crosses(hop) then Follow(payload, hop)
            else match Follow(payload, hop).value
              case Object(fields) => Some(Object(RedactMap(fields)))
              case List(items) => Some(if hop.indices == [] then List(RedactSlice(items)) else List(items))
              case leaf => Some(leaf)
  {
    hide Sensitive;
    if hop.key in payload && !Sensitive(hop.key) && hop.indices != [] && payload[hop.key].List? {
      var items, i, rest := payload[hop.key].items, hop.indices[0], hop.indices[1..];
      assert rest == [] <==> !Crosses(hop);
      if i < |items| {
        assert Follow(payload, hop) == Descend(items[i], rest);
        assert Follow(RedactMap(payload), hop) == Descend(RedactSlice(items)[i], rest);
      }
    }
  }

  /** Redaction seen path by path. A path that goes through a list in a list before any sensitive
      key leads exactly where it did before. Otherwise nothing below a sensitive key can be
      reached and its value reads as the redacted constant, and a path without sensitive keys
      leads somewhere exactly when it did before, to the same value when that is a leaf or a
      list in a list. */
  lemma {:induction false} RedactionByPath(payload: map<string, Value>, path: seq<Hop>)
    requires path != []
    ensures var before, after := Lookup(payload, path), Lookup(RedactMap(payload), path);
            var last := path[|path| - 1];
            if Escapes(path) then after == before
            else if HasSensitive(path[..|path| - 1]) then after == None
            else if Sensitive(last.key) then
              after == (if last.indices == [] && before.Some? then Some(REDACTED) else None)
            else
              && (after.Some? <==> before.Some?)
              && (before.Some? && (Leaf(before.value) || (before.value.List? && last.indices != [])) ==>
                    after == before)
    decreases |path|
  {
    hide Sensitive, Follow;
    var hop := path[0];
    RedactedHop(payload, hop);
    assert |path| == 1 ==> path[1..] == [] && !Escapes(path[1..]);
    if |path| > 1 {
      var rest := path[1..];
      assert path[..|path| - 1][1..] == rest[..|rest| - 1];
      if !Sensitive(hop.key) && !Crosses(hop) && Follow(payload, hop).Some? && Follow(payload, hop).value.Object? {
        RedactionByPath(Follow(payload, hop).value.fields, rest);
      }
    }
  }

  lemma {:induction false} SensitiveLast(path: seq<Hop>)
    requires HasSensitive(path) && !HasSensitive(path[..|path| - 1])
    ensures Sensitive(path[|path| - 1].key)
    decreases |path|
  {
    hide Sensitive;
    if |path| > 1 {
      assert path[..|path| - 1][1..] == path[1..][..|path[1..]| - 1];
      SensitiveLast(path[1..]);
    }
  }

  lemma {:induction false} NothingSensitive(path: seq<Hop>)
    requires !HasSensitive(path) && path != []
    ensures !HasSensitive(path[..|path| - 1]) && !Sensitive(path[|path| - 1].key)
    decreases |path|
  {
    hide Sensitive;
    if |path| > 1 {
      assert path[..|path| - 1][1..] == path[1..][..|path[1..]| - 1];
      NothingSensitive(path[1..]);
    }
  }

  /** So a value at or below a sensitive key stays readable if and only if the path to it goes
      through a list that is directly in a list before it comes to its first sensitive key. */
  lemma SecretReadableIff(payload: map<string, Value>, path: seq<Hop>)
    requires path != [] && HasSensitive(path)
    requires Lookup(payload, path).Some? && Lookup(payload, path) != Some(REDACTED)
    ensures Lookup(RedactMap(payload), path) == Lookup(payload, path) <==> Escapes(path)
  {
    hide Sensitive, Lookup, Escapes, HasSensitive;
    RedactionByPath(payload, path);
    if !HasSensitive(path[..|path| - 1]) {
      SensitiveLast(path);
    }
  }

  /** A password in a list in a list is not redacted. */
  lemma NestedListKeepsSecret(secret: string)
    ensures var payload := map["rows" := List([List([Object(map["password" := Text(secret)])])])];
            && RedactMap(payload) == payload
            && Lookup(RedactMap(payload), [Hop("rows", [0, 0]), Hop("password", [])]) == Some(Text(secret))
  {
    var payload := map["rows" := List([List([Object(map["password" := Text(secret)])])])];
    var items := payload["rows"].items;
    assert !Sensitive("rows");
    assert RedactSlice(items) == items;
    assert RedactMap(payload)["rows"] == payload["rows"];
    assert Follow(payload, Hop("rows", [0, 0])) == Descend(items[0], [0, 0][1..]) == Some(items[0].items[0]);
    assert [Hop("rows", [0, 0]), Hop("password", [])][1..] == [Hop("password", [])];
  }

  /** Redacting twice is redacting once. */
  lemma {:induction false} RedactionIdempotent(payload: map<string, Value>)
    ensures RedactMap(RedactMap(payload)) == RedactMap(payload)
    decreases Object(payload)
  {
    var once := RedactMap(payload);
    forall k | k in payload && !Sensitive(k) ensures RedactMap(once)[k] == once[k] {
      match payload[k]
      case Object(fields) => RedactionIdempotent(fields);
      case List(items) => SliceIdempotent(items);
      case other =>
    }
  }

  lemma {:induction false} SliceIdempotent(items: seq<Value>)
    ensures RedactSlice(RedactSlice(items)) == RedactSlice(items)
    decreases List(items)
  {
    forall i | 0 <= i < |items| ensures RedactSlice(RedactSlice(items))[i] == RedactSlice(items)[i] {
      if items[i].Object? {
        RedactionIdempotent(items[i].fields);
      }
    }
  }
}
