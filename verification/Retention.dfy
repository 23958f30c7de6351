// What a bounded client buffer keeps of everything appended to it
// (bottle-tui/internal/model/events.go:77-85, 172-235, 249-259), as functions of the history.
module Retention {
  import opened Prelude
  import opened Events
  import opened Redaction

  const DEFAULT_MAX_EVENTS := 5000
  const DEFAULT_MAX_BYTES := 0x80_0000

  datatype Config = Config(maxEvents: nat, maxBytes: nat, size: Encoder)

  function NewConfig(maxEvents: int, maxBytes: int, size: Encoder): Config
  {
    Config(if maxEvents <= 0 then DEFAULT_MAX_EVENTS else maxEvents,
           if maxBytes <= 0 then DEFAULT_MAX_BYTES else maxBytes, size)
  }

  /** An event without an encoding counts for nothing. */
  function Weight(c: Config, e: Event): nat
  {
    match c.size(e) case Some(n) => n case None => 0
  }

  function Total(c: Config, es: seq<Event>): nat
  {
    if es == [] then 0 else Weight(c, es[0]) + Total(c, es[1..])
  }

  /** Within both bounds, next to `extra` bytes taken by something else. */
  predicate Fits(c: Config, es: seq<Event>, extra: nat)
  {
    |es| <= c.maxEvents && extra + Total(c, es) <= c.maxBytes
  }

  function LongestFit(c: Config, es: seq<Event>, extra: nat): seq<Event>
  {
    if es == [] || Fits(c, es, extra) then es else LongestFit(c, es[1..], extra)
  }

  function Overhead(c: Config, marker: Option<Event>): nat
  {
    if marker.Some? then Weight(c, marker.value) else 0
  }

  /** All of the history until something had to go; from then on the overflow marker and the
      longest suffix that fits next to it. */
  function Keep(c: Config, marker: Option<Event>, history: seq<Event>): seq<Event>
  {
    if marker.None? then history else [marker.value] + LongestFit(c, history, Overhead(c, marker))
  }

  function OverflowMarker(now: int): Event
  {
    Note(KIND_OVERFLOW, now, "message", "oldest rendered events dropped")
  }

  // ---- Totals ----

  lemma {:induction false} TotalAppend(c: Config, a: seq<Event>, b: seq<Event>)
    ensures Total(c, a + b) == Total(c, a) + Total(c, b)
    decreases |a|
  {
    if a == [] {
      assert a + b == b;
    } else {
      assert (a + b)[1..] == a[1..] + b;
      TotalAppend(c, a[1..], b);
    }
  }

  lemma TotalOne(c: Config, e: Event)
    ensures Total(c, [e]) == Weight(c, e) == match c.size(e) case Some(n) => n case None => 0
  {
    assert Total(c, [e]) == Weight(c, e) + Total(c, [e][1..]);
  }

  lemma FitsSuffix(c: Config, es: seq<Event>, k: nat, x: nat, y: nat)
    requires k <= |es| && x <= y && Fits(c, es, y)
    ensures Fits(c, es[k..], x)
  {
    assert es == es[..k] + es[k..];
    TotalAppend(c, es[..k], es[k..]);
  }

  lemma FitsPrefix(c: Config, es: seq<Event>, e: Event, x: nat)
    requires Fits(c, es + [e], x)
    ensures Fits(c, es, x)
  {
    TotalAppend(c, es, [e]);
  }

  lemma StaysOverfull(c: Config, es: seq<Event>, e: Event)
    requires !Fits(c, es, 0)
    ensures !Fits(c, es + [e], 0)
  {
    if Fits(c, es + [e], 0) { FitsPrefix(c, es, e, 0); }
  }

  // ---- The longest fitting suffix ----

  /** It is a suffix, it fits unless it is empty, and no longer suffix fits. */
  lemma {:induction false} LongestFitIsLongest(c: Config, es: seq<Event>, extra: nat)
    ensures var k := |es| - |LongestFit(c, es, extra)|;
            && k >= 0 && LongestFit(c, es, extra) == es[k..]
            && (LongestFit(c, es, extra) == [] || Fits(c, LongestFit(c, es, extra), extra))
            && |LongestFit(c, es, extra)| <= c.maxEvents
            && (LongestFit(c, es, extra) != [] ==> extra + Total(c, LongestFit(c, es, extra)) <= c.maxBytes)
            && (forall j :: 0 <= j < k ==> !Fits(c, es[j..], extra))
            && (forall j :: 0 <= j < k ==> |es| - j > c.maxEvents || extra + Total(c, es[j..]) > c.maxBytes)
    decreases |es|
  {
    if es != [] && !Fits(c, es, extra) {
      var rest := es[1..];
      LongestFitIsLongest(c, rest, extra);
      var k := |rest| - |LongestFit(c, rest, extra)|;
      assert rest[k..] == es[k + 1..];
      forall j | 0 <= j < k + 1 ensures !Fits(c, es[j..], extra) {
        if j == 0 { assert es[0..] == es; } else { assert es[j..] == rest[j - 1..]; }
      }
    }
  }

  /** One round of trimming. */
  lemma TrimRound(c: Config, es: seq<Event>, x: nat)
    ensures Total(c, []) == 0
    ensures es == [] || Fits(c, es, x) ==> LongestFit(c, es, x) == es
    ensures es != [] && !Fits(c, es, x) ==> LongestFit(c, es, x) == LongestFit(c, es[1..], x)
  {
  }

  /** Something has to go exactly when the whole does not fit. */
  lemma WholeOrTrimmed(c: Config, es: seq<Event>)
    ensures |LongestFit(c, es, 0)| < |es| <==> !Fits(c, es, 0)
    ensures |LongestFit(c, es, 0)| < |es| <==> |es| > c.maxEvents || Total(c, es) > c.maxBytes
    ensures Fits(c, es, 0) ==> LongestFit(c, es, 0) == es
  {
    LongestFitIsLongest(c, es, 0);
  }

  /** Trimming after each append gives what trimming the whole history would. */
  lemma {:induction false} LongestFitStep(c: Config, es: seq<Event>, e: Event, x: nat)
    ensures LongestFit(c, LongestFit(c, es, x) + [e], x) == LongestFit(c, es + [e], x)
    decreases |es|
  {
    if es != [] && !Fits(c, es, x) {
      LongestFitStep(c, es[1..], e, x);
      if Fits(c, es + [e], x) { FitsPrefix(c, es, e, x); }
      assert (es + [e])[1..] == es[1..] + [e];
    }
  }

  /** Trimming for less first does not change what trimming for more leaves. */
  lemma {:induction false} LongestFitTwice(c: Config, es: seq<Event>, x: nat, y: nat)
    requires x <= y
    ensures LongestFit(c, LongestFit(c, es, x), y) == LongestFit(c, es, y)
    decreases |es|
  {
    if es != [] && !Fits(c, es, x) {
      LongestFitTwice(c, es[1..], x, y);
    }
  }

  // ---- The bounds ----

  /** The bounds that hold of what is kept: the event limit, with one place more for a marker; and
      the byte limit if and only if the marker alone is within it. A marker that is not is all
      that is kept. */
  lemma KeepBounds(c: Config, marker: Option<Event>, history: seq<Event>)
    requires marker.Some? == !Fits(c, history, 0)
    ensures var kept := Keep(c, marker, history);
            && |kept| <= c.maxEvents + (if marker.Some? then 1 else 0)
            && (Total(c, kept) <= c.maxBytes <==> Overhead(c, marker) <= c.maxBytes)
            && (Overhead(c, marker) > c.maxBytes ==> kept == [marker.value])
  {
    if marker.Some? {
      var x, rest := Overhead(c, marker), LongestFit(c, history, Overhead(c, marker));
      LongestFitIsLongest(c, history, x);
      TotalAppend(c, [marker.value], rest);
      TotalOne(c, marker.value);
    }
  }

  // ---- What a reader sees last ----

  /** The newest entry survives exactly when it fits next to the marker; either way something
      is kept, so the last element of an unfiltered view exists. */
  lemma NewestIsKept(c: Config, marker: Option<Event>, history: seq<Event>, e: Event)
    requires 0 < c.maxEvents
    ensures Keep(c, marker, history + [e]) != []
    ensures var kept := Keep(c, marker, history + [e]);
            if marker.None? || Weight(c, marker.value) + Weight(c, e) <= c.maxBytes
            then kept[|kept| - 1] == e else kept == [marker.value]
  {
    if marker.Some? {
      var h, x := history + [e], Weight(c, marker.value);
      LongestFitIsLongest(c, h, x);
      var k := |h| - |LongestFit(c, h, x)|;
      assert h[|history|..] == [e];
      TotalOne(c, e);
      assert Fits(c, [e], x) <==> x + Weight(c, e) <= c.maxBytes;
      if k < |h| {
        assert h[k..][|history| - k..] == [e];
        FitsSuffix(c, h[k..], |history| - k, x, x);
      }
    }
  }

  lemma MarkerReads(now: int)
    ensures OverflowMarker(now) ==
            Event(0, now, "warn", "client", "client_buffer_overflow",
                  Some(map["message" := Text("oldest rendered events dropped")]))
  {
  }

  /** Whatever is kept was appended, or is the marker. */
  lemma KeptWasAppended(c: Config, marker: Option<Event>, history: seq<Event>, e: Event)
    requires e in Keep(c, marker, history)
    ensures e in history || marker == Some(e)
  {
    if marker.Some? {
      LongestFitIsLongest(c, history, Overhead(c, marker));
    }
  }

  lemma {:induction false} SelectedWasThere(f: Filter, es: seq<Event>, e: Event)
    requires e in Select(f, es)
    ensures e in es
    decreases |es|
  {
    if e in Select(f, es[..|es| - 1]) {
      SelectedWasThere(f, es[..|es| - 1], e);
    }
  }

  // ---- The Pi's events among the client's own entries ----

  /** Only events of the Pi are numbered. */
  function Numbered(es: seq<Event>): seq<Event>
  {
    if es == [] then []
    else Numbered(es[..|es| - 1]) + (if es[|es| - 1].sequence > 0 then [es[|es| - 1]] else [])
  }

  lemma {:induction false} NumberedAppend(a: seq<Event>, b: seq<Event>)
    ensures Numbered(a + b) == Numbered(a) + Numbered(b)
    decreases |b|
  {
    if b == [] {
      assert a + b == a;
    } else {
      assert (a + b)[..|a + b| - 1] == a + b[..|b| - 1];
      NumberedAppend(a, b[..|b| - 1]);
    }
  }

  /** Of the Pi's events a buffer keeps the newest, all from some point on. */
  lemma KeepsNewest(c: Config, marker: Option<Event>, history: seq<Event>) returns (k: nat)
    requires marker.Some? ==> marker.value.sequence == 0
    ensures k <= |Numbered(history)| && Numbered(Keep(c, marker, history)) == Numbered(history)[k..]
  {
    if marker.None? {
      k := 0;
    } else {
      var rest := LongestFit(c, history, Overhead(c, marker));
      LongestFitIsLongest(c, history, Overhead(c, marker));
      var j := |history| - |rest|;
      assert history == history[..j] + rest;
      NumberedAppend(history[..j], rest);
      NumberedAppend([marker.value], rest);
      assert [marker.value][..0] == [];
      k := |Numbered(history[..j])|;
    }
  }

  // ---- Filtering ----

  datatype Filter = Filter(severities: map<string, bool>, sources: map<string, bool>, kinds: map<string, bool>)

  predicate Admits(m: map<string, bool>, key: string)
  {
    |m| == 0 || (key in m && m[key])
  }

  predicate Matches(f: Filter, e: Event)
  {
    Admits(f.severities, e.severity) && Admits(f.sources, e.source) && Admits(f.kinds, e.kind)
  }

  function Select(f: Filter, es: seq<Event>): seq<Event>
  {
    if es == [] then []
    else Select(f, es[..|es| - 1]) + (if Matches(f, es[|es| - 1]) then [es[|es| - 1]] else [])
  }

  /** Selecting keeps order and multiplicity: it distributes over concatenation, and keeps of
      every event all its occurrences or none. */
  lemma {:induction false} SelectDistributes(f: Filter, a: seq<Event>, b: seq<Event>)
    ensures Select(f, a + b) == Select(f, a) + Select(f, b)
    decreases |b|
  {
    if b == [] {
      assert a + b == a;
    } else {
      var init := b[..|b| - 1];
      assert (a + b)[..|a + b| - 1] == a + init;
      SelectDistributes(f, a, init);
    }
  }

  /** What a filter lets through, told from the keys that it turns on: in each dimension, any key if
      it has no entries at all, otherwise only those. */
  predicate Shows(f: Filter, e: Event)
  {
    && (f.severities == map[] || e.severity in Chosen(f.severities))
    && (f.sources == map[] || e.source in Chosen(f.sources))
    && (f.kinds == map[] || e.kind in Chosen(f.kinds))
  }

  function Chosen(m: map<string, bool>): set<string> { set key | key in m && m[key] }

  lemma EmptyMap(m: map<string, bool>)
    ensures |m| == 0 <==> m == map[]
  {
    if |m| == 0 {
      assert m.Keys == {};
    }
  }

  lemma ShowsMatches(f: Filter, e: Event)
    ensures Matches(f, e) <==> Shows(f, e)
  {
    EmptyMap(f.severities);
    EmptyMap(f.sources);
    EmptyMap(f.kinds);
  }

  lemma {:induction false} SelectCounts(f: Filter, es: seq<Event>, e: Event)
    ensures multiset(Select(f, es))[e] == if Shows(f, e) then multiset(es)[e] else 0
    decreases |es|
  {
    hide Matches, Shows;
    if es != [] {
      ShowsMatches(f, es[|es| - 1]);
      SelectCounts(f, es[..|es| - 1], e);
      assert es == es[..|es| - 1] + [es[|es| - 1]];
    }
  }

  predicate Unfiltered(f: Filter)
  {
    f == Filter(map[], map[], map[])
  }

  lemma {:induction false} SelectAll(f: Filter, es: seq<Event>)
    requires Unfiltered(f)
    ensures Select(f, es) == es
    decreases |es|
  {
    if es != [] {
      SelectAll(f, es[..|es| - 1]);
      assert es == es[..|es| - 1] + [es[|es| - 1]];
    }
  }
}
