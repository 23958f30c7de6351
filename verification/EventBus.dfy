// The Pi's event bus (bottle-agent/internal/eventbus/eventbus.go): a state function for each
// operation, the invariant they keep, and what a subscription delivers.
module EventBus {
  import opened Prelude
  import opened Events

  const DEFAULT_MAX_EVENTS := 2000
  const HEADROOM := 64

  /** One subscriber's channel with its history: the cursor it asked for, how much had been
      published when it subscribed, what was received from it, what it holds, and the numbers
      of the events that found it full. */
  datatype Sub = Sub(from: nat, at: nat, taken: seq<Event>, queue: seq<Event>, cap: nat, dropped: set<nat>)

  datatype Bus = Bus(
    maxEvents: nat, retained: seq<Event>, nextSequence: nat, subs: map<nat, Sub>, nextSubID: nat,
    published: seq<Event>)

  function New(maxEvents: int): Bus
  {
    Bus(if maxEvents <= 0 then DEFAULT_MAX_EVENTS else maxEvents, [], 0, map[], 0, [])
  }

  // ---- Operations ----

  function Offer(s: Sub, e: Event): Sub
  {
    if |s.queue| < s.cap then s.(queue := s.queue + [e]) else s.(dropped := s.dropped + {e.sequence})
  }

  function Retain(retained: seq<Event>, e: Event, maxEvents: nat): seq<Event>
  {
    var grown := retained + [e];
    if |grown| > maxEvents then grown[|grown| - maxEvents..] else grown
  }

  function Publish(b: Bus, draft: Event): Bus
  {
    var e := draft.(sequence := b.nextSequence + 1);
    b.(retained := Retain(b.retained, e, b.maxEvents), nextSequence := b.nextSequence + 1,
       subs := map id | id in b.subs :: Offer(b.subs[id], e), published := b.published + [e])
  }

  /** The two refusals: a cursor from the future, and one whose next event was evicted. */
  predicate Refuses(b: Bus, after: nat)
  {
    after > b.nextSequence || (|b.retained| > 0 && after + 1 < b.retained[0].sequence)
  }

  function Backlog(retained: seq<Event>, after: nat): seq<Event>
  {
    if retained == [] then []
    else (if retained[0].sequence > after then [retained[0]] else []) + Backlog(retained[1..], after)
  }

  function Subscribe(b: Bus, after: nat): Bus
  {
    if Refuses(b, after) then b
    else
      var backlog := Backlog(b.retained, after);
      b.(subs := b.subs[b.nextSubID := Sub(after, b.nextSequence, [], backlog, |backlog| + HEADROOM, {})],
         nextSubID := b.nextSubID + 1)
  }

  function Unsubscribe(b: Bus, id: nat): Bus
  {
    b.(subs := b.subs - {id})
  }

  /** A receive from one channel. */
  function Take(b: Bus, id: nat): Bus
  {
    if id in b.subs && b.subs[id].queue != [] then
      var s := b.subs[id];
      b.(subs := b.subs[id := s.(taken := s.taken + [s.queue[0]], queue := s.queue[1..])])
    else b
  }

  // ---- Reference: the published events a channel carries ----

  /** Published events number from+1 up to hi, without the dropped ones. */
  function Kept(published: seq<Event>, from: nat, hi: nat, dropped: set<nat>): seq<Event>
    requires hi <= |published|
    decreases hi
  {
    if hi <= from then []
    else Kept(published, from, hi - 1, dropped) + (if hi in dropped then [] else [published[hi - 1]])
  }

  predicate Numbered(published: seq<Event>)
  {
    forall i :: 0 <= i < |published| ==> published[i].sequence == i + 1
  }

  lemma {:induction false} KeptFrame(p: seq<Event>, q: seq<Event>, from: nat, hi: nat, d: set<nat>, d': set<nat>)
    requires hi <= |p| && p <= q
    requires forall n :: n in d && n <= hi <==> n in d' && n <= hi
    ensures Kept(p, from, hi, d) == Kept(q, from, hi, d')
    decreases hi
  {
    if hi > from {
      KeptFrame(p, q, from, hi - 1, d, d');
    }
  }

  /** Kept is strictly increasing, within its bounds, and made of the published events. */
  lemma {:induction false} KeptIncreasing(p: seq<Event>, from: nat, hi: nat, dropped: set<nat>)
    requires hi <= |p| && Numbered(p)
    ensures var k := Kept(p, from, hi, dropped);
            && (from <= hi ==> |k| <= hi - from)
            && (forall i :: 0 <= i < |k| ==>
                  from < k[i].sequence <= hi && k[i].sequence !in dropped && k[i] == p[k[i].sequence - 1])
            && (forall i, j :: 0 <= i < j < |k| ==> k[i].sequence < k[j].sequence)
    decreases hi
  {
    if hi > from {
      KeptIncreasing(p, from, hi - 1, dropped);
      var k0, k := Kept(p, from, hi - 1, dropped), Kept(p, from, hi, dropped);
      assert k == k0 || (k == k0 + [p[hi - 1]] && p[hi - 1].sequence == hi && hi !in dropped);
      hide Kept;
    }
  }

  /** Every event in range that was not dropped is there. */
  lemma {:induction false} KeptComplete(p: seq<Event>, from: nat, hi: nat, dropped: set<nat>, n: nat)
    requires from < n <= hi <= |p| && Numbered(p) && n !in dropped
    ensures p[n - 1] in Kept(p, from, hi, dropped)
    decreases hi
  {
    if n < hi {
      KeptComplete(p, from, hi - 1, dropped, n);
    }
  }

  /** ... and comes before every later one. */
  lemma KeptBefore(p: seq<Event>, from: nat, hi: nat, dropped: set<nat>, n: nat, m: nat) returns (j: nat)
    requires from < n <= hi <= |p| && Numbered(p) && n !in dropped
    requires m < |Kept(p, from, hi, dropped)| && n < Kept(p, from, hi, dropped)[m].sequence
    ensures j < m && Kept(p, from, hi, dropped)[j] == p[n - 1]
  {
    hide Kept;
    KeptComplete(p, from, hi, dropped, n);
    j :| 0 <= j < |Kept(p, from, hi, dropped)| && Kept(p, from, hi, dropped)[j] == p[n - 1];
    KeptIncreasing(p, from, hi, dropped);
  }

  /** Up to any point before the first drop nothing is missing. */
  lemma {:induction false} KeptPrefix(p: seq<Event>, from: nat, mid: nat, hi: nat, dropped: set<nat>)
    requires from <= mid <= hi <= |p|
    requires forall n :: n in dropped ==> n > mid
    ensures p[from..mid] <= Kept(p, from, hi, dropped)
    ensures mid == hi ==> Kept(p, from, hi, dropped) == p[from..hi]
    decreases hi
  {
    if hi > from {
      if mid == hi {
        KeptPrefix(p, from, hi - 1, hi - 1, dropped);
        assert p[from..hi] == p[from..hi - 1] + [p[hi - 1]];
      } else {
        KeptPrefix(p, from, mid, hi - 1, dropped);
      }
    }
  }

  // ---- Invariant ----

  function Sent(s: Sub): seq<Event> { s.taken + s.queue }

  predicate SubInv(s: Sub, published: seq<Event>)
  {
    && s.from <= s.at <= |published|
    && s.cap == s.at - s.from + HEADROOM
    && |s.queue| <= s.cap
    && Sent(s) == Kept(published, s.from, |published|, s.dropped)
    && (forall d :: d in s.dropped ==> s.at + HEADROOM < d <= |published|)
  }

  predicate Window(b: Bus)
  {
    && 0 < b.maxEvents
    && b.nextSequence == |b.published|
    && Numbered(b.published)
    && b.retained == b.published[|b.published| - Min(|b.published|, b.maxEvents)..]
  }

  predicate Inv(b: Bus)
  {
    && Window(b)
    && (forall id :: id in b.subs ==> id < b.nextSubID && SubInv(b.subs[id], b.published))
  }

  lemma {:induction false} BacklogIsSuffix(retained: seq<Event>, after: nat, k: nat)
    requires k <= |retained|
    requires forall i :: 0 <= i < k ==> retained[i].sequence <= after
    requires forall i :: k <= i < |retained| ==> retained[i].sequence > after
    ensures Backlog(retained, after) == retained[k..]
    decreases |retained|
  {
    if retained != [] {
      var rest := retained[1..];
      BacklogIsSuffix(rest, after, if k == 0 then 0 else k - 1);
      if k == 0 { assert retained == [retained[0]] + rest; } else { assert rest[k - 1..] == retained[k..]; }
    }
  }

  /** The first retained number says what was evicted. */
  lemma RetainedAt(b: Bus)
    requires Window(b)
    ensures |b.retained| <= |b.published| && (b.published != [] ==> b.retained != [])
    ensures forall i :: 0 <= i < |b.retained| ==> b.retained[i] == b.published[|b.published| - |b.retained| + i]
    ensures forall i :: 0 <= i < |b.retained| ==> b.retained[i].sequence == |b.published| - |b.retained| + i + 1
  {
  }

  /** A subscribe is refused exactly when the cursor is ahead of the bus or some event after it
      is no longer retained. */
  lemma SubscribeExact(b: Bus, after: nat)
    requires Window(b)
    ensures !Refuses(b, after) <==>
              after <= |b.published| && (forall i :: after <= i < |b.published| ==> b.published[i] in b.retained)
  {
    RetainedAt(b);
    var p, r := b.published, b.retained;
    var first := |p| - |r|;
    if !Refuses(b, after) {
      forall i | after <= i < |p| ensures p[i] in r { assert p[i] == r[i - first]; }
    } else if after <= |p| {
      assert p[after].sequence == after + 1;
      assert p[after] !in r;
    }
  }

  /** An accepted subscribe starts its channel with exactly the events after the cursor. */
  lemma BacklogExact(b: Bus, after: nat)
    requires Window(b) && !Refuses(b, after)
    ensures Backlog(b.retained, after) == b.published[after..]
  {
    RetainedAt(b);
    if b.retained != [] {
      var k := after - (|b.published| - |b.retained|);
      BacklogIsSuffix(b.retained, after, k);
      assert b.retained[k..] == b.published[after..];
    }
  }

  lemma OfferKeeps(s: Sub, published: seq<Event>, e: Event)
    requires SubInv(s, published) && Numbered(published) && e.sequence == |published| + 1
    ensures SubInv(Offer(s, e), published + [e])
  {
    var grown := published + [e];
    var s' := Offer(s, e);
    KeptFrame(published, grown, s.from, |published|, s.dropped, s'.dropped);
    if |s.queue| < s.cap {
      assert s.taken + (s.queue + [e]) == Sent(s) + [e];
    } else {
      KeptIncreasing(published, s.from, |published|, s.dropped);
      assert |Sent(s)| <= |published| - s.from;
    }
  }

  lemma PublishKeeps(b: Bus, draft: Event)
    requires Inv(b)
    ensures Inv(Publish(b, draft))
  {
    var e := draft.(sequence := b.nextSequence + 1);
    var b' := Publish(b, draft);
    forall id | id in b'.subs ensures SubInv(b'.subs[id], b'.published) {
      OfferKeeps(b.subs[id], b.published, e);
    }
    var grown := b.retained + [e];
    assert grown == b'.published[|b.published| - |b.retained|..];
  }

  lemma SubscribeKeeps(b: Bus, after: nat)
    requires Inv(b)
    ensures Inv(Subscribe(b, after))
  {
    hide Kept;
    if !Refuses(b, after) {
      BacklogExact(b, after);
      var p, s := b.published, Subscribe(b, after).subs[b.nextSubID];
      KeptPrefix(p, after, |p|, |p|, {});
      assert Sent(s) == s.queue == p[after..];
      assert SubInv(s, p);
    }
  }

  lemma TakeKeeps(b: Bus, id: nat)
    requires Inv(b)
    ensures Inv(Take(b, id))
  {
    if id in b.subs && b.subs[id].queue != [] {
      assert Sent(Take(b, id).subs[id]) == Sent(b.subs[id]);
    }
  }

  // ---- Every run of the bus ----

  datatype Call = Publishing(draft: Event) | Subscribing(after: nat) | Unsubscribing(id: nat) | Taking(id: nat)

  function Step(b: Bus, c: Call): Bus
  {
    match c
    case Publishing(draft) => Publish(b, draft)
    case Subscribing(after) => Subscribe(b, after)
    case Unsubscribing(id) => Unsubscribe(b, id)
    case Taking(id) => Take(b, id)
  }

  function Run(b: Bus, calls: seq<Call>): Bus
    decreases |calls|
  {
    if calls == [] then b else Run(Step(b, calls[0]), calls[1..])
  }

  lemma StepKeeps(b: Bus, c: Call)
    requires Inv(b)
    ensures Inv(Step(b, c))
  {
    match c
    case Publishing(draft) => PublishKeeps(b, draft);
    case Subscribing(after) => SubscribeKeeps(b, after);
    case Unsubscribing(id) =>
    case Taking(id) => TakeKeeps(b, id);
  }

  lemma {:induction false} RunKeeps(b: Bus, calls: seq<Call>)
    requires Inv(b)
    ensures Inv(Run(b, calls))
    decreases |calls|
  {
    if calls != [] {
      StepKeeps(b, calls[0]);
      RunKeeps(Step(b, calls[0]), calls[1..]);
    }
  }

  /** For an open subscription: what went into its channel is a strictly increasing selection
      of the events published after its cursor that misses exactly the dropped ones. */
  lemma DeliversSelection(s: Sub, p: seq<Event>)
    requires SubInv(s, p) && Numbered(p)
    ensures forall i, j :: 0 <= i < j < |Sent(s)| ==> Sent(s)[i].sequence < Sent(s)[j].sequence
    ensures forall i :: 0 <= i < |Sent(s)| ==>
              s.from < Sent(s)[i].sequence <= |p| && Sent(s)[i] == p[Sent(s)[i].sequence - 1]
    ensures forall i :: s.from <= i < |p| ==> (p[i] in Sent(s) <==> i + 1 !in s.dropped)
  {
    KeptIncreasing(p, s.from, |p|, s.dropped);
    forall i | s.from <= i < |p| ensures p[i] in Sent(s) <==> i + 1 !in s.dropped {
      if i + 1 !in s.dropped { KeptComplete(p, s.from, |p|, s.dropped, i + 1); }
    }
  }

  /** Whatever was called before: every open channel got such a selection; it got everything up
      to the first publish that found it full; and no such publish is part of the backlog or
      among the first 64 after the subscribe, whether or not anything was received. */
  lemma SubscriptionDelivers(maxEvents: int, calls: seq<Call>, id: nat, mid: nat)
    requires id in Run(New(maxEvents), calls).subs
    ensures var b := Run(New(maxEvents), calls);
            var p, s := b.published, b.subs[id];
            && s.from <= s.at <= |p|
            && (forall i, j :: 0 <= i < j < |Sent(s)| ==> Sent(s)[i].sequence < Sent(s)[j].sequence)
            && (forall i :: s.from <= i < |p| ==> (p[i] in Sent(s) <==> i + 1 !in s.dropped))
            && (s.from <= mid <= |p| && (forall d :: d in s.dropped ==> d > mid) ==> p[s.from..mid] <= Sent(s))
            && p[s.from..Min(|p|, s.at + HEADROOM)] <= Sent(s)
  {
    hide Run, Kept;
    RunKeeps(New(maxEvents), calls);
    var b := Run(New(maxEvents), calls);
    var p, s := b.published, b.subs[id];
    DeliversSelection(s, p);
    if s.from <= mid <= |p| && (forall d :: d in s.dropped ==> d > mid) {
      KeptPrefix(p, s.from, mid, |p|, s.dropped);
    }
    KeptPrefix(p, s.from, Min(|p|, s.at + HEADROOM), |p|, s.dropped);
  }

  lemma {:induction false} LimitStays(b: Bus, calls: seq<Call>)
    ensures Run(b, calls).maxEvents == b.maxEvents
    decreases |calls|
  {
    if calls != [] {
      LimitStays(Step(b, calls[0]), calls[1..]);
    }
  }

  /** The retained window after any calls: the newest events, as many as the requested limit allows
      or else 2000, numbered on. */
  lemma RetainedIsNewest(maxEvents: int, calls: seq<Call>)
    ensures var b := Run(New(maxEvents), calls);
            && |b.retained| == Min(|b.published|, if maxEvents > 0 then maxEvents else 2000)
            && |b.retained| == Min(b.nextSequence, b.maxEvents) <= |b.published| == b.nextSequence
            && b.retained == b.published[|b.published| - |b.retained|..]
            && (forall i :: 0 <= i < |b.retained| ==>
                  b.retained[i].sequence == b.nextSequence - |b.retained| + i + 1)
  {
    RunKeeps(New(maxEvents), calls);
    LimitStays(New(maxEvents), calls);
  }

  /** A cursor refused because its events were evicted stays refused whatever is called. */
  lemma {:induction false} RefusalIsFinal(b: Bus, calls: seq<Call>, after: nat)
    requires Inv(b) && after <= b.nextSequence && Refuses(b, after)
    ensures Refuses(Run(b, calls), after) && after <= Run(b, calls).nextSequence
    decreases |calls|
  {
    if calls != [] {
      var b' := Step(b, calls[0]);
      StepKeeps(b, calls[0]);
      assert b'.retained[0].sequence >= b.retained[0].sequence;
      RefusalIsFinal(b', calls[1..], after);
    }
  }
}
