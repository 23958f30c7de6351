// Event replication from the Pi to the laptop as a step system: the bus, the server's forwarding
// goroutine (bottle-agent/internal/controlplane/server.go:261-276), the connection, the client's
// StreamEvents goroutine (bottle-tui/internal/controlplane/client.go:200-247), the pull stream
// over its two channels (bottle-tui/internal/controlplane/eventstream.go:24-40) and the loop
// that reopens from the cursor (bottle-tui/internal/model/events.go:332-376).
module Replication {
  import opened Prelude
  import opened Events
  import EventBus

  const OUT_CAPACITY := 32

  /** What the Pi has answered to the stream's subscribe request. */
  datatype Answer = Pending | Serving(id: nat) | Refused

  datatype Fault = Resync | Broken

  /** One opened stream: the cursor it asked for, the Pi's answer, the events on the wire, the
      two client channels, whether their producer has finished and closed them, and how many
      events the loop has received from it. */
  datatype Stream = Stream(
    from: nat, answer: Answer, wire: seq<Event>, out: seq<Event>, errs: Option<Fault>, done: bool, passed: nat)

  /** The whole system. History: the client's subscriptions, the acceptable events that were
      dropped from its channel and then overtaken, refusals sent, gap markers made, and refusals
      that can no longer be marked. */
  datatype World = World(
    bus: EventBus.Bus, stream: Option<Stream>, log: Log,
    ours: set<nat>, lost: set<nat>, refusals: nat, marks: nat, hidden: nat)

  function Start(maxEvents: int): World
  {
    World(EventBus.New(maxEvents), None, EMPTY_LOG, {}, {}, 0, 0, 0)
  }

  datatype Action =
    | Elsewhere(call: EventBus.Call)   // a publish, or another subscriber
    | Open                             // the loop opens a stream from its cursor
    | Serve                            // the Pi handles the subscribe request
    | Forward                          // the Pi moves an event from the channel to the wire
    | Decode                           // the client moves an event from the wire to its channel
    | Refusal                          // the client reads the resync reply
    | Break(reported: bool)            // the connection fails or ends, with or without an error
    | Deliver(now: int)                // the loop receives an event
    | Fail(now: int)                   // the loop receives an error
    | End                              // the loop sees a closed channel

  /** Calls on the bus by others. The server never cancels a subscription context, so nobody
      closes this client's channels; only abandoned ones are drained behind its back. */
  predicate Foreign(w: World, call: EventBus.Call)
  {
    match call
    case Unsubscribing(id) => id !in w.ours
    case Taking(id) => !(w.stream.Some? && w.stream.value.answer == Serving(id))
    case _ => true
  }

  predicate Live(w: World) { w.stream.Some? && !w.stream.value.done }

  /** The events overtaken when the loop accepts e: acceptable, dropped, and past the cursor. */
  function Overtaken(size: Encoder, w: World, e: Event): set<nat>
  {
    if Acceptable(size, e) && w.stream.Some? && w.stream.value.answer.Serving?
       && w.stream.value.answer.id in w.bus.subs then
      set n | n in w.bus.subs[w.stream.value.answer.id].dropped
              && w.log.lastSequence < n < e.sequence && n <= |w.bus.published|
              && Acceptable(size, w.bus.published[n - 1])
    else {}
  }

  /** The refusal that the loop has not marked yet: the resync reply is under way, or the resync
      error waits in its channel. */
  function Unmarked(w: World): nat
  {
    if w.stream.Some? && w.stream.value.answer.Refused? && (!w.stream.value.done || w.stream.value.errs == Some(Resync))
    then 1 else 0
  }

  function ServeRequest(w: World): World
    requires w.stream.Some?
  {
    var s := w.stream.value;
    if EventBus.Refuses(w.bus, s.from) then
      w.(stream := Some(s.(answer := Refused)), refusals := w.refusals + 1)
    else
      w.(bus := EventBus.Subscribe(w.bus, s.from), ours := w.ours + {w.bus.nextSubID},
         stream := Some(s.(answer := Serving(w.bus.nextSubID))))
  }

  function ForwardOne(w: World): World
    requires w.stream.Some?
  {
    var s := w.stream.value;
    if s.answer.Serving? && s.answer.id in w.bus.subs && w.bus.subs[s.answer.id].queue != [] then
      var e := w.bus.subs[s.answer.id].queue[0];
      w.(bus := EventBus.Take(w.bus, s.answer.id),
         stream := Some(if s.done then s else s.(wire := s.wire + [e])))
    else w
  }

  function DeliverOne(size: Encoder, w: World, now: int): World
    requires w.stream.Some? && w.stream.value.out != []
  {
    var s := w.stream.value;
    w.(log := AddTo(size, w.log, s.out[0], now), lost := w.lost + Overtaken(size, w, s.out[0]),
       stream := Some(s.(out := s.out[1..], passed := s.passed + 1)))
  }

  function FailOne(w: World, now: int): World
    requires w.stream.Some? && w.stream.value.errs.Some?
  {
    var s := w.stream.value;
    match s.errs.value
    case Resync =>
      w.(log := MarkGap(w.log, GAP_REASON, now), marks := w.marks + 1, stream := Some(s.(errs := None)))
    case Broken => w.(stream := None)
  }

  /** One step; an action that is not possible changes nothing. */
  function Next(size: Encoder, w: World, a: Action): World
  {
    match a
    case Elsewhere(call) => if Foreign(w, call) then w.(bus := EventBus.Step(w.bus, call)) else w
    case Open =>
      if w.stream.None? then w.(stream := Some(Stream(w.log.lastSequence, Pending, [], [], None, false, 0))) else w
    case Serve => if Live(w) && w.stream.value.answer.Pending? then ServeRequest(w) else w
    case Forward => if w.stream.Some? then ForwardOne(w) else w
    case Decode =>
      if Live(w) && w.stream.value.wire != [] && |w.stream.value.out| < OUT_CAPACITY then
        var s := w.stream.value;
        w.(stream := Some(s.(out := s.out + [s.wire[0]], wire := s.wire[1..])))
      else w
    case Refusal =>
      if Live(w) && w.stream.value.answer.Refused? then
        w.(stream := Some(w.stream.value.(errs := Some(Resync), done := true)))
      else w
    case Break(reported) =>
      if Live(w) then
        w.(stream := Some(w.stream.value.(wire := [], errs := if reported then Some(Broken) else None, done := true)),
           hidden := w.hidden + Unmarked(w))
      else w
    case Deliver(now) => if w.stream.Some? && w.stream.value.out != [] then DeliverOne(size, w, now) else w
    case Fail(now) => if w.stream.Some? && w.stream.value.errs.Some? then FailOne(w, now) else w
    case End =>
      // A closed channel is readable next to whatever the other one still holds.
      if w.stream.Some? && w.stream.value.done && (w.stream.value.errs.None? || w.stream.value.out == []) then
        w.(stream := None, hidden := w.hidden + Unmarked(w))
      else w
  }

  function Exec(size: Encoder, w: World, actions: seq<Action>): World
    decreases |actions|
  {
    if actions == [] then w else Exec(size, Next(size, w, actions[0]), actions[1..])
  }

  lemma {:induction false} ExecAppend(size: Encoder, w: World, a: seq<Action>, b: seq<Action>)
    ensures Exec(size, w, a + b) == Exec(size, Exec(size, w, a), b)
    decreases |a|
  {
    if a == [] {
      assert a + b == b;
    } else {
      assert (a + b)[1..] == a[1..] + b;
      ExecAppend(size, Next(size, w, a[0]), a[1..], b);
    }
  }

  // ---- Reference: what a client at a cursor should hold ----

  /** The acceptable events among the first hi, redacted, without the lost ones. */
  function Surviving(size: Encoder, published: seq<Event>, hi: nat, lost: set<nat>): seq<Event>
    requires hi <= |published|
    decreases hi
  {
    if hi == 0 then []
    else Surviving(size, published, hi - 1, lost) +
         (if hi in lost || !Acceptable(size, published[hi - 1]) then [] else [Redact(published[hi - 1])])
  }

  lemma {:induction false} SurvivingFrame(
      size: Encoder, p: seq<Event>, q: seq<Event>, hi: nat, lost: set<nat>, lost': set<nat>)
    requires hi <= |p| && p <= q
    requires forall n :: n in lost && n <= hi <==> n in lost' && n <= hi
    ensures Surviving(size, p, hi, lost) == Surviving(size, q, hi, lost')
    decreases hi
  {
    if hi > 0 {
      SurvivingFrame(size, p, q, hi - 1, lost, lost');
    }
  }

  /** Nothing survives from a stretch of lost and unacceptable events. */
  lemma {:induction false} SurvivingSkip(size: Encoder, p: seq<Event>, lo: nat, hi: nat, lost: set<nat>)
    requires lo <= hi <= |p|
    requires forall i :: lo <= i < hi ==> i + 1 in lost || !Acceptable(size, p[i])
    ensures Surviving(size, p, hi, lost) == Surviving(size, p, lo, lost)
    decreases hi
  {
    if lo < hi {
      SurvivingSkip(size, p, lo, hi - 1, lost);
    }
  }

  /** A redacted copy of the event published under the same number. */
  predicate CopyOf(p: seq<Event>, e: Event)
  {
    0 < e.sequence <= |p| && e == Redact(p[e.sequence - 1])
  }

  lemma {:induction false} SurvivingElements(size: Encoder, p: seq<Event>, hi: nat, lost: set<nat>)
    requires hi <= |p| && EventBus.Numbered(p)
    ensures forall i | 0 <= i < |Surviving(size, p, hi, lost)| ::
              CopyOf(p, Surviving(size, p, hi, lost)[i]) && Surviving(size, p, hi, lost)[i].sequence <= hi
              && Surviving(size, p, hi, lost)[i].sequence !in lost
    ensures forall i, j | 0 <= i < j < |Surviving(size, p, hi, lost)| ::
              Surviving(size, p, hi, lost)[i].sequence < Surviving(size, p, hi, lost)[j].sequence
    decreases hi
  {
    if hi > 0 {
      SurvivingElements(size, p, hi - 1, lost);
      assert CopyOf(p, Redact(p[hi - 1]));
    }
  }

  lemma {:induction false} SurvivingHas(size: Encoder, p: seq<Event>, hi: nat, lost: set<nat>, i: nat)
    requires i < hi <= |p| && i + 1 !in lost && Acceptable(size, p[i])
    ensures Redact(p[i]) in Surviving(size, p, hi, lost)
    decreases hi
  {
    if i < hi - 1 {
      SurvivingHas(size, p, hi - 1, lost, i);
    }
  }

  lemma {:induction false} SurvivingAll(size: Encoder, p: seq<Event>, hi: nat)
    requires hi <= |p| && forall i :: 0 <= i < hi ==> Acceptable(size, p[i])
    ensures |Surviving(size, p, hi, {})| == hi
    ensures forall i :: 0 <= i < hi ==> Surviving(size, p, hi, {})[i] == Redact(p[i])
    decreases hi
  {
    if hi > 0 {
      SurvivingAll(size, p, hi - 1);
    }
  }

  // ---- Invariant ----

  /** The stream's events are a stretch of what its channel carried, in order: received by the
      loop, then in the client's channel, then on the wire, then still in the Pi's channel. */
  predicate Pipe(size: Encoder, s: Stream, sub: EventBus.Sub, cursor: nat)
  {
    var sent := EventBus.Sent(sub);
    && sub.from == s.from
    && s.passed + |s.out| + |s.wire| <= |sub.taken|
    && s.out + s.wire == sent[s.passed..s.passed + |s.out| + |s.wire|]
    && (!s.done ==> s.passed + |s.out| + |s.wire| == |sub.taken|)
    && Split(size, sent, s.passed, cursor)
  }

  /** The cursor separates what the loop has received from what it has not. */
  predicate Split(size: Encoder, sent: seq<Event>, passed: nat, cursor: nat)
  {
    && (forall i :: 0 <= i < passed && i < |sent| && Acceptable(size, sent[i]) ==> sent[i].sequence <= cursor)
    && (forall i :: passed <= i < |sent| ==> cursor < sent[i].sequence)
  }

  predicate StreamInv(size: Encoder, w: World, s: Stream)
  {
    && s.from <= w.log.lastSequence
    && |s.out| <= OUT_CAPACITY
    && (s.errs.Some? ==> s.done && (s.errs.value.Resync? ==> s.answer.Refused?))
    && match s.answer
       case Serving(id) => id in w.ours && id in w.bus.subs && Pipe(size, s, w.bus.subs[id], w.log.lastSequence)
       case _ => s.wire == s.out == [] && s.from == w.log.lastSequence && s.passed == 0
  }

  predicate LostByUs(w: World, n: nat)
  {
    exists id :: id in w.ours && id in w.bus.subs && n in w.bus.subs[id].dropped
  }

  predicate Inv(size: Encoder, w: World)
  {
    && EventBus.Inv(w.bus)
    && w.ours <= w.bus.subs.Keys
    && w.log.lastSequence <= |w.bus.published|
    && w.log.accepted == Surviving(size, w.bus.published, w.log.lastSequence, w.lost)
    && (forall n :: n in w.lost ==>
          0 < n <= w.log.lastSequence && Acceptable(size, w.bus.published[n - 1]) && LostByUs(w, n))
    && (w.stream.Some? ==> StreamInv(size, w, w.stream.value))
    && w.refusals == w.marks + w.hidden + Unmarked(w)
  }

  // ---- Every step keeps it ----

  /** What calls by others leave of one of this client's subscriptions. */
  predicate Extends(earlier: EventBus.Sub, later: EventBus.Sub, published: seq<Event>)
  {
    && later.from == earlier.from && earlier.dropped <= later.dropped
    && earlier.taken <= later.taken
    && EventBus.Sent(earlier) <= EventBus.Sent(later)
    && (forall i :: |EventBus.Sent(earlier)| <= i < |EventBus.Sent(later)| ==>
          EventBus.Sent(later)[i].sequence > |published|)
  }

  lemma ElsewhereExtends(w: World, call: EventBus.Call, id: nat)
    requires EventBus.Inv(w.bus) && w.ours <= w.bus.subs.Keys && id in w.ours && Foreign(w, call)
    ensures var b' := EventBus.Step(w.bus, call);
            id in b'.subs && w.bus.published <= b'.published
            && Extends(w.bus.subs[id], b'.subs[id], w.bus.published)
            && (w.stream.Some? && w.stream.value.answer == Serving(id) ==> b'.subs[id].taken == w.bus.subs[id].taken)
  {
    var s, s' := w.bus.subs[id], EventBus.Step(w.bus, call).subs[id];
    assert call.Publishing? && |s.queue| < s.cap ==>
        EventBus.Sent(s') == EventBus.Sent(s) + [call.draft.(sequence := w.bus.nextSequence + 1)];
    assert !call.Publishing? ==> EventBus.Sent(s') == EventBus.Sent(s);
  }

  lemma LostFrame(w: World, w': World)
    requires w.ours <= w'.ours && w'.ours <= w'.bus.subs.Keys
    requires forall id :: id in w.ours && id in w.bus.subs ==> w.bus.subs[id].dropped <= w'.bus.subs[id].dropped
    ensures forall n :: LostByUs(w, n) ==> LostByUs(w', n)
  {
    forall n | LostByUs(w, n) ensures LostByUs(w', n) {
      var id :| id in w.ours && id in w.bus.subs && n in w.bus.subs[id].dropped;
      assert n in w'.bus.subs[id].dropped;
    }
  }

  lemma PipeExtends(size: Encoder, s: Stream, earlier: EventBus.Sub, later: EventBus.Sub, p: seq<Event>, cursor: nat)
    requires Pipe(size, s, earlier, cursor) && Extends(earlier, later, p) && cursor <= |p|
    requires s.done || later.taken == earlier.taken
    ensures Pipe(size, s, later, cursor)
  {
    var sent, sent' := EventBus.Sent(earlier), EventBus.Sent(later);
    assert forall i :: 0 <= i < |sent| ==> sent[i] == sent'[i];
  }

  lemma ElsewhereKeeps(size: Encoder, w: World, call: EventBus.Call)
    requires Inv(size, w) && Foreign(w, call)
    ensures Inv(size, w.(bus := EventBus.Step(w.bus, call)))
  {
    var w' := w.(bus := EventBus.Step(w.bus, call));
    assert EventBus.Inv(w'.bus) by { EventBus.StepKeeps(w.bus, call); }
    forall id | id in w.ours
      ensures id in w'.bus.subs && w.bus.subs[id].dropped <= w'.bus.subs[id].dropped
    {
      ElsewhereExtends(w, call, id);
    }
    assert w.bus.published <= w'.bus.published;
    SurvivingFrame(size, w.bus.published, w'.bus.published, w.log.lastSequence, w.lost, w.lost);
    LostFrame(w, w');
    if w.stream.Some? && w.stream.value.answer.Serving? {
      var s := w.stream.value;
      ElsewhereExtends(w, call, s.answer.id);
      PipeExtends(size, s, w.bus.subs[s.answer.id], w'.bus.subs[s.answer.id], w.bus.published, w.log.lastSequence);
    }
  }

  lemma ServeKeeps(size: Encoder, w: World)
    requires Inv(size, w) && Live(w) && w.stream.value.answer.Pending?
    ensures Inv(size, ServeRequest(w))
  {
    var s, b, w' := w.stream.value, w.bus, ServeRequest(w);
    if EventBus.Refuses(b, s.from) {
      LostFrame(w, w');
    } else {
      assert EventBus.Inv(w'.bus) by { EventBus.SubscribeKeeps(b, s.from); }
      LostFrame(w, w');
      NewPipe(size, s, b, w.log.lastSequence);
    }
  }

  lemma NewPipe(size: Encoder, s: Stream, b: EventBus.Bus, cursor: nat)
    requires EventBus.Window(b) && !EventBus.Refuses(b, s.from)
    requires s.wire == s.out == [] && s.passed == 0 && s.from == cursor
    ensures Pipe(size, s, EventBus.Subscribe(b, s.from).subs[b.nextSubID], cursor)
  {
    var sub := EventBus.Subscribe(b, s.from).subs[b.nextSubID];
    EventBus.BacklogExact(b, s.from);
    assert EventBus.Sent(sub) == b.published[s.from..];
  }

  lemma ForwardKeeps(size: Encoder, w: World)
    requires Inv(size, w) && w.stream.Some?
    ensures Inv(size, ForwardOne(w))
  {
    hide Pipe;
    var s, b, w' := w.stream.value, w.bus, ForwardOne(w);
    if s.answer.Serving? && b.subs[s.answer.id].queue != [] {
      var id := s.answer.id;
      assert EventBus.Inv(w'.bus) by { EventBus.TakeKeeps(b, id); }
      LostFrame(w, w');
      if s.done {
        DrainPipe(size, s, b.subs[id], w.log.lastSequence);
      } else {
        ForwardPipe(size, s, b.subs[id], w.log.lastSequence);
      }
    }
  }

  function Taken(sub: EventBus.Sub): EventBus.Sub
    requires sub.queue != []
  {
    sub.(taken := sub.taken + [sub.queue[0]], queue := sub.queue[1..])
  }

  /** An abandoned stream keeps its stretch while the Pi drains the channel. */
  lemma DrainPipe(size: Encoder, s: Stream, sub: EventBus.Sub, cursor: nat)
    requires Pipe(size, s, sub, cursor) && sub.queue != [] && s.done
    ensures Pipe(size, s, Taken(sub), cursor)
  {
    assert EventBus.Sent(Taken(sub)) == EventBus.Sent(sub);
  }

  /** The stretch of an open stream grows by the event that leaves the Pi's channel. */
  lemma ForwardPipe(size: Encoder, s: Stream, sub: EventBus.Sub, cursor: nat)
    requires Pipe(size, s, sub, cursor) && sub.queue != [] && !s.done
    ensures Pipe(size, s.(wire := s.wire + [sub.queue[0]]), Taken(sub), cursor)
  {
    assert EventBus.Sent(Taken(sub)) == EventBus.Sent(sub);
    Stretch(EventBus.Sent(sub), s.out + s.wire, s.passed, |sub.taken|);
    assert s.out + (s.wire + [sub.queue[0]]) == (s.out + s.wire) + [sub.queue[0]];
  }

  lemma Stretch(sent: seq<Event>, held: seq<Event>, lo: nat, hi: nat)
    requires lo <= hi < |sent| && held == sent[lo..hi]
    ensures held + [sent[hi]] == sent[lo..hi + 1]
  {
  }

  /** Steps that change nothing but the client's end of the stream. */
  lemma StreamStep(size: Encoder, w: World, stream: Option<Stream>, hidden: nat)
    requires Inv(size, w)
    requires stream.Some? ==> StreamInv(size, w.(stream := stream), stream.value)
    requires hidden + Unmarked(w.(stream := stream)) == w.hidden + Unmarked(w)
    ensures Inv(size, w.(stream := stream, hidden := hidden))
  {
    LostFrame(w, w.(stream := stream, hidden := hidden));
  }

  lemma ShorterPipe(size: Encoder, s: Stream, s': Stream, sub: EventBus.Sub, cursor: nat)
    requires Pipe(size, s, sub, cursor) && s'.from == s.from && s'.passed == s.passed
    requires s'.out + s'.wire <= s.out + s.wire && (!s'.done ==> !s.done && s'.out + s'.wire == s.out + s.wire)
    ensures Pipe(size, s', sub, cursor)
  {
    var sent, k := EventBus.Sent(sub), |s'.out| + |s'.wire|;
    assert s'.out + s'.wire == (s.out + s.wire)[..k] == sent[s.passed..s.passed + k];
  }

  lemma LocalKeeps(size: Encoder, w: World, a: Action)
    requires Inv(size, w) && (a.Open? || a.Decode? || a.Refusal? || a.Break? || a.End?)
    ensures Inv(size, Next(size, w, a))
  {
    hide Pipe;
    var w' := Next(size, w, a);
    if w' != w {
      if w.stream.Some? && w'.stream.Some? && w.stream.value.answer.Serving? {
        var s, s' := w.stream.value, w'.stream.value;
        assert s'.out + s'.wire <= s.out + s.wire && (a.Decode? ==> s'.out + s'.wire == s.out + s.wire);
        ShorterPipe(size, s, s', w.bus.subs[s.answer.id], w.log.lastSequence);
      }
      StreamStep(size, w, w'.stream, w'.hidden);
    }
  }

  lemma FailKeeps(size: Encoder, w: World, now: int)
    requires Inv(size, w) && w.stream.Some? && w.stream.value.errs.Some?
    ensures Inv(size, FailOne(w, now))
  {
    LostFrame(w, FailOne(w, now));
  }

  /** The event received next, where it stands in what the channel carried, and that this is what
      was published after the stream's cursor without the drops. */
  lemma HeadOfOut(size: Encoder, w: World)
    requires Inv(size, w) && w.stream.Some? && w.stream.value.out != []
    ensures w.stream.value.answer.Serving? && w.stream.value.answer.id in w.bus.subs
    ensures var s, p := w.stream.value, w.bus.published;
            var sub, e := w.bus.subs[s.answer.id], s.out[0];
            && EventBus.Numbered(p) && sub.from <= w.log.lastSequence
            && EventBus.Sent(sub) == EventBus.Kept(p, sub.from, |p|, sub.dropped)
            && s.passed < |EventBus.Sent(sub)| && e == EventBus.Sent(sub)[s.passed]
            && w.log.lastSequence < e.sequence <= |p| && e == p[e.sequence - 1]
  {
    hide Surviving, LostByUs;
    var s, p := w.stream.value, w.bus.published;
    var sub := w.bus.subs[s.answer.id];
    assert s.out[0] == (s.out + s.wire)[0] == EventBus.Sent(sub)[s.passed];
    EventBus.KeptIncreasing(p, sub.from, |p|, sub.dropped);
  }

  lemma PassedIsBehind(size: Encoder, w: World, j: nat)
    requires Inv(size, w) && w.stream.Some? && w.stream.value.answer.Serving? && w.stream.value.answer.id in w.bus.subs
    requires var sent := EventBus.Sent(w.bus.subs[w.stream.value.answer.id]);
             j < w.stream.value.passed && j < |sent| && w.log.lastSequence < sent[j].sequence
    ensures !Acceptable(size, EventBus.Sent(w.bus.subs[w.stream.value.answer.id])[j])
  {
    hide Surviving, LostByUs, Acceptable;
  }

  /** The heart of the protocol: between the cursor and the event received there is nothing but
      unacceptable events and events this stream's channel dropped. */
  lemma GapIsLost(size: Encoder, w: World, i: nat)
    requires Inv(size, w) && w.stream.Some? && w.stream.value.out != []
    requires Acceptable(size, w.stream.value.out[0])
    requires w.log.lastSequence <= i && i + 1 < w.stream.value.out[0].sequence && i < |w.bus.published|
    ensures i + 1 in Overtaken(size, w, w.stream.value.out[0]) || !Acceptable(size, w.bus.published[i])
  {
    HeadOfOut(size, w);
    hide Inv, Acceptable, EventBus.Kept;
    var s, p := w.stream.value, w.bus.published;
    var sub := w.bus.subs[s.answer.id];
    if i + 1 !in sub.dropped {
      var j := EventBus.KeptBefore(p, sub.from, |p|, sub.dropped, i + 1, s.passed);
      PassedIsBehind(size, w, j);
    }
  }

  lemma LogNow(size: Encoder, w: World)
    requires Inv(size, w)
    ensures EventBus.Numbered(w.bus.published)
    ensures w.log.lastSequence <= |w.bus.published| && |w.bus.published| + 1 !in w.lost
    ensures w.log.accepted == Surviving(size, w.bus.published, w.log.lastSequence, w.lost)
    ensures w.ours <= w.bus.subs.Keys
    ensures forall n :: n in w.lost ==>
              0 < n <= w.log.lastSequence && Acceptable(size, w.bus.published[n - 1]) && LostByUs(w, n)
    ensures w.stream.Some? && w.stream.value.answer.Serving? ==> w.stream.value.answer.id in w.ours
  {
    hide Pipe;
  }

  /** What a delivery adds to the lost events lies between the cursor and the event delivered. */
  lemma LostBetween(size: Encoder, w: World, now: int)
    requires Inv(size, w) && w.stream.Some? && w.stream.value.out != []
    ensures var e, w' := w.stream.value.out[0], DeliverOne(size, w, now);
            && e.sequence !in w'.lost
            && (forall n :: n in w.lost && n <= w.log.lastSequence <==> n in w'.lost && n <= w.log.lastSequence)
            && w'.lost == w.lost + Overtaken(size, w, e)
            && (!Acceptable(size, e) ==> w'.lost == w.lost)
  {
    HeadOfOut(size, w);
    hide Pipe, Surviving, Acceptable;
  }

  lemma DeliverLog(size: Encoder, w: World, now: int)
    requires Inv(size, w) && w.stream.Some? && w.stream.value.out != []
    ensures DeliverOne(size, w, now).log.lastSequence ==
            (if Acceptable(size, w.stream.value.out[0]) then w.stream.value.out[0].sequence else w.log.lastSequence)
    ensures DeliverOne(size, w, now).log.lastSequence <= |w.bus.published|
    ensures DeliverOne(size, w, now).log.accepted ==
            Surviving(size, w.bus.published, DeliverOne(size, w, now).log.lastSequence, DeliverOne(size, w, now).lost)
  {
    HeadOfOut(size, w);
    LogNow(size, w);
    LostBetween(size, w, now);
    hide Inv, Overtaken, Acceptable;
    var p, e, w' := w.bus.published, w.stream.value.out[0], DeliverOne(size, w, now);
    if Acceptable(size, e) {
      var c, n := w.log.lastSequence, e.sequence;
      forall i | c <= i < n - 1 ensures i + 1 in w'.lost || !Acceptable(size, p[i]) { GapIsLost(size, w, i); }
      SurvivingFrame(size, p, p, c, w.lost, w'.lost);
      SurvivingSkip(size, p, c, n - 1, w'.lost);
      assert e == p[n - 1];
    }
  }

  lemma DeliverPipe(size: Encoder, s: Stream, sub: EventBus.Sub, p: seq<Event>, cursor: nat)
    requires Pipe(size, s, sub, cursor) && s.out != []
    requires EventBus.SubInv(sub, p) && EventBus.Numbered(p)
    ensures Pipe(size, s.(out := s.out[1..], passed := s.passed + 1), sub,
                 if Acceptable(size, s.out[0]) then Max(cursor, s.out[0].sequence) else cursor)
  {
    var s', sent := s.(out := s.out[1..], passed := s.passed + 1), EventBus.Sent(sub);
    EventBus.KeptIncreasing(p, sub.from, |p|, sub.dropped);
    assert s.out[0] == (s.out + s.wire)[0] == sent[s.passed];
    assert s'.out + s'.wire == (s.out + s.wire)[1..];
  }

  lemma DeliverLost(size: Encoder, w: World, now: int)
    requires Inv(size, w) && w.stream.Some? && w.stream.value.out != []
    ensures var w' := DeliverOne(size, w, now);
            forall n :: n in w'.lost ==>
              0 < n <= w'.log.lastSequence && n <= |w.bus.published|
              && Acceptable(size, w.bus.published[n - 1]) && LostByUs(w', n)
  {
    LogNow(size, w);
    HeadOfOut(size, w);
    hide Inv, Surviving, Acceptable, EventBus.Kept;
    var w' := DeliverOne(size, w, now);
    LostFrame(w, w');
    forall n | n in Overtaken(size, w, w.stream.value.out[0]) ensures LostByUs(w', n) {
      assert n in w'.bus.subs[w.stream.value.answer.id].dropped;
    }
  }

  lemma DeliverKeeps(size: Encoder, w: World, now: int)
    requires Inv(size, w) && w.stream.Some? && w.stream.value.out != []
    ensures Inv(size, DeliverOne(size, w, now))
  {
    hide Pipe, Surviving;
    DeliverLog(size, w, now);
    DeliverLost(size, w, now);
    DeliverPipe(size, w.stream.value, w.bus.subs[w.stream.value.answer.id], w.bus.published, w.log.lastSequence);
  }

  lemma NextKeeps(size: Encoder, w: World, a: Action)
    requires Inv(size, w)
    ensures Inv(size, Next(size, w, a))
  {
    match a
    case Elsewhere(call) => if Foreign(w, call) { ElsewhereKeeps(size, w, call); }
    case Serve => if Live(w) && w.stream.value.answer.Pending? { ServeKeeps(size, w); }
    case Forward => if w.stream.Some? { ForwardKeeps(size, w); }
    case Deliver(now) => if w.stream.Some? && w.stream.value.out != [] { DeliverKeeps(size, w, now); }
    case Fail(now) => if w.stream.Some? && w.stream.value.errs.Some? { FailKeeps(size, w, now); }
    case _ => LocalKeeps(size, w, a);
  }

  lemma {:induction false} ExecKeeps(size: Encoder, w: World, actions: seq<Action>)
    requires Inv(size, w)
    ensures Inv(size, Exec(size, w, actions))
    decreases |actions|
  {
    if actions != [] {
      NextKeeps(size, w, actions[0]);
      ExecKeeps(size, Next(size, w, actions[0]), actions[1..]);
    }
  }

  lemma StartInv(size: Encoder, maxEvents: int)
    ensures Inv(size, Start(maxEvents))
  {
  }
}
