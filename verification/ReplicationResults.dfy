// What holds of every run of the replication system, whatever the interleaving.
module ReplicationResults {
  import opened Prelude
  import opened Events
  import opened Replication
  import EventBus

  /** Any script of steps from the start. */
  function Reach(size: Encoder, maxEvents: int, actions: seq<Action>): World
  {
    Exec(size, Start(maxEvents), actions)
  }

  lemma ReachInv(size: Encoder, maxEvents: int, actions: seq<Action>)
    ensures Inv(size, Reach(size, maxEvents, actions))
  {
    StartInv(size, maxEvents);
    ExecKeeps(size, Start(maxEvents), actions);
  }

  // ---- Nothing invented, nothing twice, nothing out of order ----

  /** Accepted events carry strictly increasing numbers up to the cursor, and each is the
      redaction of the event published under its number. */
  lemma AcceptedInOrder(size: Encoder, maxEvents: int, actions: seq<Action>)
    ensures var w := Reach(size, maxEvents, actions);
            && (forall i :: 0 <= i < |w.log.accepted| ==>
                  CopyOf(w.bus.published, w.log.accepted[i]) && w.log.accepted[i].sequence <= w.log.lastSequence)
            && (forall i, j :: 0 <= i < j < |w.log.accepted| ==>
                  w.log.accepted[i].sequence < w.log.accepted[j].sequence)
  {
    ReachInv(size, maxEvents, actions);
    var w := Reach(size, maxEvents, actions);
    SurvivingElements(size, w.bus.published, w.log.lastSequence, w.lost);
  }

  // ---- Conservation ----

  /** Every acceptable event up to the cursor was either accepted, or found this client's
      channel full when it was published; never both. */
  lemma NothingVanishes(size: Encoder, maxEvents: int, actions: seq<Action>, i: nat)
    requires i < Reach(size, maxEvents, actions).log.lastSequence
    ensures var w := Reach(size, maxEvents, actions);
            && i < |w.bus.published|
            && (Acceptable(size, w.bus.published[i]) ==>
                  (Redact(w.bus.published[i]) in w.log.accepted <==> i + 1 !in w.lost))
            && (i + 1 in w.lost ==> Acceptable(size, w.bus.published[i]) && LostByUs(w, i + 1))
  {
    ReachInv(size, maxEvents, actions);
    var w := Reach(size, maxEvents, actions);
    var p := w.bus.published;
    if i + 1 in w.lost {
      SurvivingElements(size, p, w.log.lastSequence, w.lost);
      assert Redact(p[i]).sequence == i + 1;
    } else if Acceptable(size, p[i]) {
      SurvivingHas(size, p, w.log.lastSequence, w.lost, i);
    }
  }

  /** The accepted list is the whole of the acceptable events up to the cursor exactly when no
      dropped event was overtaken. */
  lemma CompleteIffNothingLost(size: Encoder, maxEvents: int, actions: seq<Action>)
    ensures Reach(size, maxEvents, actions).log.lastSequence <= |Reach(size, maxEvents, actions).bus.published|
    ensures Reach(size, maxEvents, actions).log.accepted ==
              Surviving(size, Reach(size, maxEvents, actions).bus.published,
                        Reach(size, maxEvents, actions).log.lastSequence, {})
            <==> Reach(size, maxEvents, actions).lost == {}
  {
    ReachInv(size, maxEvents, actions);
    var w := Reach(size, maxEvents, actions);
    var p, c := w.bus.published, w.log.lastSequence;
    if w.lost != {} {
      var n :| n in w.lost;
      SurvivingHas(size, p, c, {}, n - 1);
      SurvivingElements(size, p, c, w.lost);
      assert Redact(p[n - 1]).sequence == n;
      assert Redact(p[n - 1]) !in w.log.accepted;
    }
  }

  /** The promise of the cursor: with valid events, and no publish that found this client's
      channel full, the accepted list is the first LastSequence events, redacted, through any
      number of failed connections, abandoned buffers and refused subscribes. */
  lemma PrefixDelivery(size: Encoder, maxEvents: int, actions: seq<Action>)
    requires var w := Reach(size, maxEvents, actions);
             && (forall i :: 0 <= i < |w.bus.published| ==> Acceptable(size, w.bus.published[i]))
             && (forall id :: id in w.ours && id in w.bus.subs ==> w.bus.subs[id].dropped == {})
    ensures var w := Reach(size, maxEvents, actions);
            && |w.log.accepted| == w.log.lastSequence <= |w.bus.published|
            && (forall i :: 0 <= i < |w.log.accepted| ==> w.log.accepted[i] == Redact(w.bus.published[i]))
  {
    ReachInv(size, maxEvents, actions);
    var w := Reach(size, maxEvents, actions);
    assert forall n :: n in w.lost ==> LostByUs(w, n);
    assert forall n :: !LostByUs(w, n);
    assert w.lost == {};
    SurvivingAll(size, w.bus.published, w.log.lastSequence);
  }

  /** The client reads on while fewer than 32 events wait in its channel. */
  lemma ReadsAhead(size: Encoder, w: World)
    requires Live(w) && w.stream.value.wire != []
    ensures var s := w.stream.value;
            Next(size, w, Decode).stream ==
            if |s.out| < 32 then Some(s.(out := s.out + s.wire[..1], wire := s.wire[1..])) else w.stream
  {
    assert w.stream.value.wire[..1] == [w.stream.value.wire[0]];
  }

  // ---- Refusals ----

  /** In one bus lifetime the client never asks for the future: the only refusal it can meet is
      for an evicted event. Markers never outnumber refusals. */
  lemma OnlyEvictionRefuses(size: Encoder, maxEvents: int, actions: seq<Action>)
    ensures var w := Reach(size, maxEvents, actions);
            && w.log.lastSequence <= w.bus.nextSequence
            && (w.stream.Some? ==> w.stream.value.from <= w.log.lastSequence)
            && (EventBus.Refuses(w.bus, w.log.lastSequence) <==>
                  exists i | w.log.lastSequence <= i < |w.bus.published| :: w.bus.published[i] !in w.bus.retained)
            && w.marks <= w.refusals
  {
    ReachInv(size, maxEvents, actions);
    var w := Reach(size, maxEvents, actions);
    EventBus.SubscribeExact(w.bus, w.log.lastSequence);
  }

  /** The steps that hide a refusal: the connection breaks before the client reads the resync
      reply, or the loop takes the closed event channel while the resync error waits. */
  predicate Hides(w: World, a: Action)
  {
    && w.stream.Some? && w.stream.value.answer.Refused?
    && match a
       case Break(_) => !w.stream.value.done
       case End => w.stream.value.errs == Some(Resync) && w.stream.value.out == []
       case _ => false
  }

  function HidingSteps(size: Encoder, w: World, actions: seq<Action>): nat
    decreases |actions|
  {
    if actions == [] then 0
    else (if Hides(w, actions[0]) then 1 else 0) + HidingSteps(size, Next(size, w, actions[0]), actions[1..])
  }

  lemma {:induction false} HiddenExactly(size: Encoder, w: World, actions: seq<Action>)
    requires Inv(size, w)
    ensures Exec(size, w, actions).hidden == w.hidden + HidingSteps(size, w, actions)
    decreases |actions|
  {
    if actions != [] {
      HiddenStep(size, w, actions[0]);
      NextKeeps(size, w, actions[0]);
      HiddenExactly(size, Next(size, w, actions[0]), actions[1..]);
    }
  }

  lemma HiddenStep(size: Encoder, w: World, a: Action)
    requires Inv(size, w)
    ensures Next(size, w, a).hidden == w.hidden + (if Hides(w, a) then 1 else 0)
  {
  }

  /** In every run each refusal is marked, still under way, or was hidden by such a step; so all
      are marked if and only if none is under way and no such step was taken. */
  lemma MarkedUnlessHidden(size: Encoder, maxEvents: int, actions: seq<Action>)
    ensures var w := Reach(size, maxEvents, actions);
            && w.refusals == w.marks + Unmarked(w) + HidingSteps(size, Start(maxEvents), actions)
            && (w.marks == w.refusals <==> Unmarked(w) == 0 && HidingSteps(size, Start(maxEvents), actions) == 0)
  {
    StartInv(size, maxEvents);
    ReachInv(size, maxEvents, actions);
    HiddenExactly(size, Start(maxEvents), actions);
  }

  /** The stream can still bring an event that the client accepts: it is served, and its
      connection is up or an acceptable event has reached the client's channel. */
  predicate Bringing(size: Encoder, w: World)
  {
    && w.stream.Some? && w.stream.value.answer.Serving?
    && (w.stream.value.done ==> HoldsAcceptable(size, w.stream.value.out))
  }

  predicate HoldsAcceptable(size: Encoder, es: seq<Event>)
  {
    exists i :: 0 <= i < |es| && Acceptable(size, es[i])
  }

  /** The next event has been evicted, and the stream will bring no other. */
  predicate Stuck(size: Encoder, w: World)
  {
    EventBus.Refuses(w.bus, w.log.lastSequence) && !Bringing(size, w)
  }

  lemma StuckStep(size: Encoder, w: World, a: Action)
    requires Inv(size, w) && Stuck(size, w)
    ensures var w' := Next(size, w, a);
            Stuck(size, w') && w'.log.accepted == w.log.accepted && w'.log.lastSequence == w.log.lastSequence
  {
    hide Pipe, Surviving, Acceptable;
    match a
    case Elsewhere(call) =>
      if Foreign(w, call) {
        EventBus.RefusalIsFinal(w.bus, [call], w.log.lastSequence);
        assert EventBus.Run(w.bus, [call]) == EventBus.Run(EventBus.Step(w.bus, call), []);
      }
    case Deliver(now) =>
      if w.stream.Some? && w.stream.value.out != [] {
        var out := w.stream.value.out;
        assert !Acceptable(size, out[0]);
        assert forall i :: 0 <= i < |out[1..]| ==> out[1..][i] == out[i + 1];
      }
    case _ =>
  }

  /** The stream does not resume after a gap: once the next event is evicted and the stream brings
      no other, no continuation ever accepts another event or moves the cursor. */
  lemma {:induction false} StuckForever(size: Encoder, w: World, actions: seq<Action>)
    requires Inv(size, w) && Stuck(size, w)
    ensures var w' := Exec(size, w, actions);
            Stuck(size, w') && w'.log.accepted == w.log.accepted && w'.log.lastSequence == w.log.lastSequence
    decreases |actions|
  {
    hide Inv, Stuck;
    if actions != [] {
      NextKeeps(size, w, actions[0]);
      StuckStep(size, w, actions[0]);
      StuckForever(size, Next(size, w, actions[0]), actions[1..]);
    }
  }

  // ---- Catching up ----

  /** Moves one event all the way from the Pi's channel to the loop. */
  function Haul(now: int): seq<Action> { [Forward, Decode, Deliver(now)] }

  function Hauls(k: nat, now: int): seq<Action>
  {
    if k == 0 then [] else Haul(now) + Hauls(k - 1, now)
  }

  /** A served stream with nothing under way. */
  predicate Flowing(w: World)
  {
    && Live(w) && w.stream.value.answer.Serving? && w.stream.value.wire == w.stream.value.out == []
    && w.stream.value.answer.id in w.bus.subs
  }

  function Channel(w: World): EventBus.Sub
    requires Flowing(w)
  {
    w.bus.subs[w.stream.value.answer.id]
  }

  /** One haul, spelled out. */
  lemma HaulOne(size: Encoder, w: World, now: int)
    requires Inv(size, w) && Flowing(w) && Channel(w).queue != []
    ensures var w', e := Exec(size, w, Haul(now)), Channel(w).queue[0];
            && Flowing(w') && w'.stream.value.answer == w.stream.value.answer
            && Channel(w') == Taken(Channel(w))
            && w'.bus.published == w.bus.published
            && w'.log == AddTo(size, w.log, e, now)
            && w'.lost == w.lost + Overtaken(size, w, e)
            && w'.marks == w.marks && w'.refusals == w.refusals
  {
    hide Acceptable, AddTo;
    var e := Channel(w).queue[0];
    var w1 := Next(size, w, Forward);
    var w2 := Next(size, w1, Decode);
    var w3 := Next(size, w2, Deliver(now));
    assert w1.stream.value.wire == [e];
    assert w2.stream.value.out == [e] && w2.stream.value.wire == [];
    assert w3.stream.value.out == [];
    assert Haul(now)[1..] == [Decode, Deliver(now)] && Haul(now)[1..][1..] == [Deliver(now)];
    assert Haul(now)[1..][1..][1..] == [];
    assert Exec(size, w, Haul(now)) == Exec(size, w1, [Decode, Deliver(now)]);
    assert Exec(size, w1, [Decode, Deliver(now)]) == Exec(size, w2, [Deliver(now)]);
    assert Exec(size, w2, [Deliver(now)]) == w3;
    assert Overtaken(size, w2, e) == Overtaken(size, w, e);
  }

  /** What hauling k events leaves alone, and the losses it records. */
  predicate Hauled(size: Encoder, w: World, w': World, k: nat)
    requires Flowing(w)
  {
    && Flowing(w') && w'.stream.value.answer == w.stream.value.answer
    && Channel(w').dropped == Channel(w).dropped && |Channel(w').queue| + k == |Channel(w).queue|
    && w'.bus.published == w.bus.published && w'.marks == w.marks && w'.refusals == w.refusals
    && w.lost <= w'.lost <= w.lost + Channel(w).dropped
    && w.log.lastSequence <= w'.log.lastSequence <= |w.bus.published|
    && Recorded(size, w, w'.log.lastSequence, w'.lost)
  }

  /** Acceptable events that this stream's channel dropped, past w's cursor up to hi, are lost. */
  predicate Recorded(size: Encoder, w: World, hi: nat, lost: set<nat>)
    requires Flowing(w) && hi <= |w.bus.published|
  {
    forall n | n in Channel(w).dropped && w.log.lastSequence < n <= hi ::
      Acceptable(size, w.bus.published[n - 1]) ==> n in lost
  }

  /** The next event of a flowing stream is past the cursor and was not dropped. */
  lemma NextInChannel(size: Encoder, w: World)
    requires Inv(size, w) && Flowing(w) && Channel(w).queue != []
    ensures w.log.lastSequence < Channel(w).queue[0].sequence <= |w.bus.published|
    ensures Channel(w).queue[0].sequence !in Channel(w).dropped
  {
    var sub, p := Channel(w), w.bus.published;
    EventBus.KeptIncreasing(p, sub.from, |p|, sub.dropped);
    assert EventBus.Sent(sub)[|sub.taken|] == sub.queue[0];
  }

  lemma HauledFrom(size: Encoder, w: World, w': World, now: int)
    requires Flowing(w) && Channel(w).queue != []
    requires w.log.lastSequence < Channel(w).queue[0].sequence <= |w.bus.published|
    requires Channel(w).queue[0].sequence !in Channel(w).dropped
    requires Flowing(w') && w'.stream.value.answer == w.stream.value.answer
    requires Channel(w') == Taken(Channel(w))
    requires w'.bus.published == w.bus.published && w'.marks == w.marks && w'.refusals == w.refusals
    requires w'.log == AddTo(size, w.log, Channel(w).queue[0], now)
    requires w'.lost == w.lost + Overtaken(size, w, Channel(w).queue[0])
    ensures Hauled(size, w, w', 1)
  {
  }

  lemma HauledThen(size: Encoder, w: World, w1: World, w2: World, k: nat)
    requires Flowing(w) && Hauled(size, w, w1, 1) && Hauled(size, w1, w2, k)
    ensures Hauled(size, w, w2, k + 1)
  {
  }

  lemma HaulFirst(size: Encoder, w: World, now: int)
    requires Inv(size, w) && Flowing(w) && Channel(w).queue != []
    ensures Inv(size, Exec(size, w, Haul(now))) && Hauled(size, w, Exec(size, w, Haul(now)), 1)
  {
    hide Inv;
    ExecKeeps(size, w, Haul(now));
    HaulOne(size, w, now);
    NextInChannel(size, w);
    HauledFrom(size, w, Exec(size, w, Haul(now)), now);
  }

  lemma HauledNone(size: Encoder, w: World)
    requires Inv(size, w) && Flowing(w)
    ensures Hauled(size, w, w, 0)
  {
  }

  /** k hauls move k events and record exactly the losses they pass. */
  lemma {:induction false} HaulMany(size: Encoder, w: World, k: nat, now: int)
    requires Inv(size, w) && Flowing(w) && k <= |Channel(w).queue|
    ensures Inv(size, Exec(size, w, Hauls(k, now))) && Hauled(size, w, Exec(size, w, Hauls(k, now)), k)
    decreases k
  {
    hide Inv;
    if k == 0 {
      HauledNone(size, w);
    } else {
      var w1, rest := Exec(size, w, Haul(now)), Hauls(k - 1, now);
      HaulFirst(size, w, now);
      HaulMany(size, w1, k - 1, now);
      HauledThen(size, w, w1, Exec(size, w1, rest), k - 1);
      ExecAppend(size, w, Haul(now), rest);
    }
  }

  lemma NothingBeyond(size: Encoder, s: Stream, sub: EventBus.Sub, p: seq<Event>, cursor: nat, i: nat)
    requires Pipe(size, s, sub, cursor) && !s.done && s.wire == s.out == [] && sub.queue == []
    requires EventBus.SubInv(sub, p) && EventBus.Numbered(p) && sub.from <= cursor <= i < |p| && i + 1 !in sub.dropped
    ensures !Acceptable(size, p[i])
  {
    EventBus.KeptComplete(p, sub.from, |p|, sub.dropped, i + 1);
    var j :| 0 <= j < |EventBus.Sent(sub)| && EventBus.Sent(sub)[j] == p[i];
    assert j < s.passed;
  }

  /** A stream that has handed over everything and dropped nothing leaves the client with every
      acceptable event published so far, but for the earlier losses. */
  lemma AllDelivered(size: Encoder, w: World)
    requires Inv(size, w) && Flowing(w) && Channel(w).queue == [] && Channel(w).dropped == {}
    ensures w.log.accepted == Surviving(size, w.bus.published, |w.bus.published|, w.lost)
  {
    var p, c := w.bus.published, w.log.lastSequence;
    forall i | c <= i < |p| ensures !Acceptable(size, p[i]) {
      NothingBeyond(size, w.stream.value, Channel(w), p, c, i);
    }
    SurvivingSkip(size, p, c, |p|, w.lost);
  }

  /** So does hauling all that a stream's channel holds, if it dropped nothing. */
  lemma AllHauled(size: Encoder, w: World, k: nat, now: int)
    requires Inv(size, w) && Flowing(w) && |Channel(w).queue| == k && Channel(w).dropped == {}
    ensures Exec(size, w, Hauls(k, now)).log.accepted ==
            Surviving(size, w.bus.published, |w.bus.published|, w.lost)
  {
    hide Inv, Surviving, Recorded;
    HaulMany(size, w, k, now);
    assert Exec(size, w, Hauls(k, now)).lost == w.lost;
    AllDelivered(size, Exec(size, w, Hauls(k, now)));
  }

  const REOPEN: seq<Action> := [Open, Serve]

  lemma Reopened(size: Encoder, w: World)
    requires Inv(size, w) && w.stream.None? && !EventBus.Refuses(w.bus, w.log.lastSequence)
    ensures var w' := Exec(size, w, REOPEN);
            && Inv(size, w') && Flowing(w')
            && w'.bus.published == w.bus.published && w'.log == w.log && w'.lost == w.lost
            && w'.marks == w.marks && w'.refusals == w.refusals
            && Channel(w').queue == w.bus.published[w.log.lastSequence..] && Channel(w').dropped == {}
            && Channel(w').cap == |Channel(w').queue| + EventBus.HEADROOM
  {
    ExecKeeps(size, w, REOPEN);
    var w1 := Next(size, w, Open);
    assert REOPEN[1..] == [Serve] && [Serve][1..] == [];
    assert Exec(size, w1, [Serve]) == Exec(size, Next(size, w1, Serve), []);
    EventBus.BacklogExact(w.bus, w.log.lastSequence);
  }

  /** A publish into a flowing stream's channel. */
  lemma PublishInto(size: Encoder, w: World, draft: Event)
    requires Inv(size, w) && Flowing(w)
    ensures var w' := Next(size, w, Elsewhere(EventBus.Publishing(draft)));
            var e := draft.(sequence := |w.bus.published| + 1);
            && Inv(size, w') && Flowing(w') && w'.stream == w.stream && w'.log == w.log && w'.lost == w.lost
            && w'.marks == w.marks && w'.refusals == w.refusals
            && w'.bus.published == w.bus.published + [e]
            && Channel(w') == EventBus.Offer(Channel(w), e)
  {
    hide EventBus.SubInv, Pipe, EventBus.Retain;
    NextKeeps(size, w, Elsewhere(EventBus.Publishing(draft)));
  }

  function CatchUp(k: nat, now: int): seq<Action> { REOPEN + Hauls(k, now) }

  /** Between streams, while the next event is still retained, one quiet reopening brings the
      client everything: no acceptable event is missing but those lost before. */
  lemma CatchesUp(size: Encoder, w: World, now: int)
    requires Inv(size, w) && w.stream.None? && !EventBus.Refuses(w.bus, w.log.lastSequence)
    ensures w.log.lastSequence <= |w.bus.published|
    ensures Exec(size, w, CatchUp(|w.bus.published| - w.log.lastSequence, now)).log.accepted ==
            Surviving(size, w.bus.published, |w.bus.published|, w.lost)
  {
    hide Inv;
    var w1, k := Exec(size, w, REOPEN), |w.bus.published| - w.log.lastSequence;
    Reopened(size, w);
    ExecAppend(size, w, REOPEN, Hauls(k, now));
    AllHauled(size, w1, k, now);
  }

  lemma {:induction false} SurvivingGrows(size: Encoder, p: seq<Event>, lo: nat, hi: nat, lost: set<nat>)
    requires lo <= hi <= |p|
    ensures |Surviving(size, p, lo, lost)| <= |Surviving(size, p, hi, lost)|
    decreases hi
  {
    if lo < hi {
      SurvivingGrows(size, p, lo, hi - 1, lost);
    }
  }

  function Restart(draft: Event, k: nat, now: int): seq<Action>
  {
    REOPEN + ([Elsewhere(EventBus.Publishing(draft))] + Hauls(k, now))
  }

  lemma OneMoreSurvives(size: Encoder, p: seq<Event>, e: Event, lo: nat, lost: set<nat>)
    requires lo <= |p| && Acceptable(size, e) && |p| + 1 !in lost
    ensures |Surviving(size, p + [e], |p| + 1, lost)| > |Surviving(size, p, lo, lost)|
  {
    SurvivingFrame(size, p, p + [e], lo, lost, lost);
    SurvivingGrows(size, p + [e], lo, |p|, lost);
  }

  /** A publish into a stream that has dropped nothing arrives with the rest of its channel. */
  lemma PublishedArrives(size: Encoder, w: World, draft: Event, k: nat, now: int)
    requires Inv(size, w) && Flowing(w) && Channel(w).dropped == {}
    requires |Channel(w).queue| + 1 == k <= Channel(w).cap
    ensures Exec(size, Next(size, w, Elsewhere(EventBus.Publishing(draft))), Hauls(k, now)).log.accepted ==
            Surviving(size, w.bus.published + [draft.(sequence := |w.bus.published| + 1)],
                      |w.bus.published| + 1, w.lost)
  {
    hide Inv, Surviving, Acceptable, Exec, Hauls, Next;
    PublishInto(size, w, draft);
    AllHauled(size, Next(size, w, Elsewhere(EventBus.Publishing(draft))), k, now);
  }

  lemma RestartAccepts(size: Encoder, w: World, draft: Event, now: int)
    requires Inv(size, w) && w.stream.None? && !EventBus.Refuses(w.bus, w.log.lastSequence)
    requires forall n: nat {:trigger draft.(sequence := n)} :: Acceptable(size, draft.(sequence := n))
    ensures w.log.lastSequence <= |w.bus.published|
    ensures var k := |w.bus.published| - w.log.lastSequence + 1;
            |Exec(size, w, Restart(draft, k, now)).log.accepted| > |w.log.accepted|
  {
    hide Surviving, Acceptable, Exec, Hauls, Next, Inv, Restart;
    LogNow(size, w);
    var p, c := w.bus.published, w.log.lastSequence;
    Reopened(size, w);
    RestartScript(size, w, draft, |p| - c + 1, now);
    PublishedArrives(size, Exec(size, w, REOPEN), draft, |p| - c + 1, now);
    OneMoreSurvives(size, p, draft.(sequence := |p| + 1), c, w.lost);
  }

  lemma RestartScript(size: Encoder, w: World, draft: Event, k: nat, now: int)
    ensures Exec(size, w, Restart(draft, k, now)) ==
            Exec(size, Next(size, Exec(size, w, REOPEN), Elsewhere(EventBus.Publishing(draft))), Hauls(k, now))
  {
    var a := Elsewhere(EventBus.Publishing(draft));
    ExecAppend(size, w, REOPEN, [a] + Hauls(k, now));
    assert ([a] + Hauls(k, now))[1..] == Hauls(k, now);
  }

  /** Some continuation accepts another event. */
  ghost predicate CanAccept(size: Encoder, w: World)
  {
    exists actions :: |Exec(size, w, actions).log.accepted| > |w.log.accepted|
  }

  lemma CanAcceptFrom(size: Encoder, w: World, actions: seq<Action>)
    requires |Exec(size, w, actions).log.accepted| > |w.log.accepted|
    ensures CanAccept(size, w)
  {
  }

  /** What can happen after a step can happen, if the step takes nothing back. */
  lemma CanAcceptAfter(size: Encoder, w: World, a: Action)
    requires |Next(size, w, a).log.accepted| >= |w.log.accepted| && CanAccept(size, Next(size, w, a))
    ensures CanAccept(size, w)
  {
    var w1 := Next(size, w, a);
    var actions :| |Exec(size, w1, actions).log.accepted| > |w1.log.accepted|;
    assert ([a] + actions)[1..] == actions;
    CanAcceptFrom(size, w, [a] + actions);
  }

  lemma CanAcceptNow(size: Encoder, w: World, a: Action)
    requires |Next(size, w, a).log.accepted| > |w.log.accepted|
    ensures CanAccept(size, w)
  {
    assert [a][1..] == [];
    assert Exec(size, w, [a]) == Exec(size, Next(size, w, a), []);
    CanAcceptFrom(size, w, [a]);
  }

  lemma DeliverEffect(size: Encoder, w: World, now: int)
    requires w.stream.Some? && w.stream.value.out != []
    ensures var s, w' := w.stream.value, Next(size, w, Deliver(now));
            && w'.stream == Some(s.(out := s.out[1..], passed := s.passed + 1)) && w'.bus == w.bus
            && |w'.log.accepted| == |w.log.accepted| + (if Acceptable(size, s.out[0]) then 1 else 0)
            && (!Acceptable(size, s.out[0]) ==> w'.log.lastSequence == w.log.lastSequence)
  {
  }

  /** An acceptable event in the client's channel is accepted in its turn. */
  lemma {:induction false} HeldIsAccepted(size: Encoder, w: World, now: int)
    requires w.stream.Some? && HoldsAcceptable(size, w.stream.value.out)
    ensures CanAccept(size, w)
    decreases |w.stream.value.out|
  {
    var out := w.stream.value.out;
    hide Acceptable, AddTo, Next;
    DeliverEffect(size, w, now);
    if Acceptable(size, out[0]) {
      CanAcceptNow(size, w, Deliver(now));
    } else {
      var i :| 0 <= i < |out| && Acceptable(size, out[i]);
      assert out[1..][i - 1] == out[i];
      HeldIsAccepted(size, Next(size, w, Deliver(now)), now);
      CanAcceptAfter(size, w, Deliver(now));
    }
  }

  /** Between streams: a stream opened at the cursor brings the next event published. */
  lemma RestartCanAccept(size: Encoder, w: World, draft: Event, now: int)
    requires Inv(size, w) && w.stream.None? && !EventBus.Refuses(w.bus, w.log.lastSequence)
    requires forall n: nat {:trigger draft.(sequence := n)} :: Acceptable(size, draft.(sequence := n))
    ensures CanAccept(size, w)
  {
    hide Inv, Exec, Restart;
    RestartAccepts(size, w, draft, now);
    CanAcceptFrom(size, w, Restart(draft, |w.bus.published| - w.log.lastSequence + 1, now));
  }

  /** The step by which the loop comes to the end of a stream that is done. */
  function Ending(w: World, now: int): Action
    requires w.stream.Some?
  {
    if w.stream.value.out != [] then Deliver(now) else if w.stream.value.errs.Some? then Fail(now) else End
  }

  function Left(w: World): nat
  {
    if w.stream.None? then 0 else |w.stream.value.out| + (if w.stream.value.errs.Some? then 2 else 1)
  }

  lemma EndingEffect(size: Encoder, w: World, now: int)
    requires w.stream.Some? && w.stream.value.done
    requires w.stream.value.out != [] ==> !Acceptable(size, w.stream.value.out[0])
    ensures var w' := Next(size, w, Ending(w, now));
            && w'.bus == w.bus && w'.log.lastSequence == w.log.lastSequence && w'.log.accepted == w.log.accepted
            && (w'.stream.Some? ==> w'.stream.value.done) && Left(w') < Left(w)
  {
    hide Acceptable;
  }

  /** A stream that is done ends, and the next one brings an event, unless this one does. */
  lemma {:induction false} EndedCanAccept(size: Encoder, w: World, draft: Event, now: int)
    requires Inv(size, w) && !EventBus.Refuses(w.bus, w.log.lastSequence)
    requires w.stream.Some? ==> w.stream.value.done
    requires forall n: nat {:trigger draft.(sequence := n)} :: Acceptable(size, draft.(sequence := n))
    ensures CanAccept(size, w)
    decreases Left(w)
  {
    hide Inv, Acceptable, Next, EventBus.Refuses;
    if w.stream.None? {
      RestartCanAccept(size, w, draft, now);
    } else if w.stream.value.out != [] && Acceptable(size, w.stream.value.out[0]) {
      DeliverEffect(size, w, now);
      CanAcceptNow(size, w, Deliver(now));
    } else {
      var a := Ending(w, now);
      NextKeeps(size, w, a);
      EndingEffect(size, w, now);
      EndedCanAccept(size, Next(size, w, a), draft, now);
      CanAcceptAfter(size, w, a);
    }
  }

  lemma QuietCanAccept(size: Encoder, w: World, draft: Event, now: int)
    requires Inv(size, w) && !EventBus.Refuses(w.bus, w.log.lastSequence)
    requires forall n: nat {:trigger draft.(sequence := n)} :: Acceptable(size, draft.(sequence := n))
    ensures CanAccept(size, w)
  {
    if Live(w) {
      NextKeeps(size, w, Break(false));
      hide Inv, Acceptable;
      EndedCanAccept(size, Next(size, w, Break(false)), draft, now);
      CanAcceptAfter(size, w, Break(false));
    } else {
      EndedCanAccept(size, w, draft, now);
    }
  }

  /** How far the events of a served stream have to go. */
  function Distance(w: World): nat
    requires Live(w) && w.stream.value.answer.Serving? && w.stream.value.answer.id in w.bus.subs
  {
    |w.stream.value.out| + 2 * |w.stream.value.wire| + 3 * |w.bus.subs[w.stream.value.answer.id].queue|
  }

  /** The step that brings them on. */
  function Onward(w: World, now: int): Action
    requires Live(w)
  {
    if w.stream.value.out != [] then Deliver(now) else if w.stream.value.wire != [] then Decode else Forward
  }

  lemma OnwardEffect(size: Encoder, w: World, now: int)
    requires Live(w) && w.stream.value.answer.Serving? && w.stream.value.answer.id in w.bus.subs
    requires Distance(w) > 0
    ensures var w' := Next(size, w, Onward(w, now));
            && Live(w') && w'.stream.value.answer == w.stream.value.answer && w'.bus.subs.Keys == w.bus.subs.Keys
            && Distance(w') < Distance(w) && |w'.log.accepted| >= |w.log.accepted|
  {
    hide Acceptable;
  }

  /** A served stream with its connection up: what it holds arrives, and then a new event does. */
  lemma {:induction false} ServedCanAccept(size: Encoder, w: World, draft: Event, now: int)
    requires Inv(size, w) && Live(w) && w.stream.value.answer.Serving? && w.stream.value.answer.id in w.bus.subs
    requires forall n: nat {:trigger draft.(sequence := n)} :: Acceptable(size, draft.(sequence := n))
    ensures CanAccept(size, w)
    decreases Distance(w)
  {
    hide Inv, Next, Acceptable;
    if Distance(w) > 0 {
      var a := Onward(w, now);
      NextKeeps(size, w, a);
      OnwardEffect(size, w, now);
      ServedCanAccept(size, Next(size, w, a), draft, now);
      CanAcceptAfter(size, w, a);
    } else {
      EmptyCanAccept(size, w, draft, now);
    }
  }

  lemma EmptyCanAccept(size: Encoder, w: World, draft: Event, now: int)
    requires Inv(size, w) && Flowing(w) && Channel(w).queue == []
    requires forall n: nat {:trigger draft.(sequence := n)} :: Acceptable(size, draft.(sequence := n))
    ensures CanAccept(size, w)
  {
    var a, e := Elsewhere(EventBus.Publishing(draft)), draft.(sequence := |w.bus.published| + 1);
    RoomLeft(size, w);
    PublishInto(size, w, draft);
    hide Inv, Next, Exec;
    var w1 := Next(size, w, a);
    HaulOne(size, w1, now);
    assert Channel(w1).queue == [e] && Acceptable(size, e);
    CanAcceptFrom(size, w1, Haul(now));
    CanAcceptAfter(size, w, a);
  }

  lemma RoomLeft(size: Encoder, w: World)
    requires Inv(size, w) && Flowing(w)
    ensures Channel(w).cap > 0
  {
    hide Pipe, Surviving, LostByUs;
  }

  /** Exactly when the client can ever accept another event: when the event after its cursor has
      not been evicted, or the stream still brings one. */
  lemma ResumesIffRetained(size: Encoder, w: World, draft: Event, now: int)
    requires Inv(size, w)
    requires forall n: nat {:trigger draft.(sequence := n)} :: Acceptable(size, draft.(sequence := n))
    ensures CanAccept(size, w) <==> !EventBus.Refuses(w.bus, w.log.lastSequence) || Bringing(size, w)
  {
    hide Acceptable;
    if Stuck(size, w) {
      forall actions ensures |Exec(size, w, actions).log.accepted| <= |w.log.accepted| {
        StuckForever(size, w, actions);
      }
    } else if !EventBus.Refuses(w.bus, w.log.lastSequence) {
      QuietCanAccept(size, w, draft, now);
    } else if w.stream.value.done {
      HeldIsAccepted(size, w, now);
    } else {
      LogNow(size, w);
      ServedCanAccept(size, w, draft, now);
    }
  }

  // ---- Two things the stream does not report ----

  function Publishes(draft: Event, k: nat): seq<Action>
  {
    if k == 0 then [] else [Elsewhere(EventBus.Publishing(draft))] + Publishes(draft, k - 1)
  }

  /** A reachable refusal: a client that is never served is stuck exactly when more was published
      than the window holds. */
  lemma StuckIfEvicted(size: Encoder, maxEvents: int, draft: Event, k: nat)
    ensures var w := Reach(size, maxEvents, Publishes(draft, k));
            && w.stream.None? && w.log == EMPTY_LOG && w.refusals == 0 && w.marks == 0
            && (Stuck(size, w) <==> k > if maxEvents > 0 then maxEvents else 2000)
  {
    ReachInv(size, maxEvents, Publishes(draft, k));
    OnlyPublished(size, Start(maxEvents), draft, k);
    EventBus.RetainedAt(Reach(size, maxEvents, Publishes(draft, k)).bus);
  }

  lemma {:induction false} OnlyPublished(size: Encoder, w: World, draft: Event, k: nat)
    ensures var w' := Exec(size, w, Publishes(draft, k));
            && w' == w.(bus := w'.bus) && w'.bus.maxEvents == w.bus.maxEvents
            && |w'.bus.published| == |w.bus.published| + k
    decreases k
  {
    if k > 0 {
      var a, rest := Elsewhere(EventBus.Publishing(draft)), Publishes(draft, k - 1);
      assert ([a] + rest)[1..] == rest;
      OnlyPublished(size, Next(size, w, a), draft, k - 1);
    }
  }

  predicate Filled(w: World, w': World, k: nat)
    requires Flowing(w)
  {
    && Flowing(w') && w'.stream == w.stream && w'.log == w.log && w'.lost == w.lost
    && w'.marks == w.marks && w'.refusals == w.refusals
    && |w'.bus.published| == |w.bus.published| + k
    && |Channel(w').queue| == |Channel(w).queue| + k
    && Channel(w').cap == Channel(w).cap && Channel(w').dropped == Channel(w).dropped
  }

  lemma FilledThen(w: World, w1: World, w2: World, k: nat)
    requires Flowing(w) && Filled(w, w1, 1) && Filled(w1, w2, k)
    ensures Filled(w, w2, k + 1)
  {
  }

  lemma PublishFits(size: Encoder, w: World, draft: Event)
    requires Inv(size, w) && Flowing(w) && |Channel(w).queue| < Channel(w).cap
    ensures var w' := Next(size, w, Elsewhere(EventBus.Publishing(draft)));
            Inv(size, w') && Filled(w, w', 1)
  {
    PublishInto(size, w, draft);
  }

  lemma {:induction false} PublishesFill(size: Encoder, w: World, draft: Event, k: nat)
    requires Inv(size, w) && Flowing(w) && |Channel(w).queue| + k <= Channel(w).cap
    ensures Inv(size, Exec(size, w, Publishes(draft, k))) && Filled(w, Exec(size, w, Publishes(draft, k)), k)
    decreases k
  {
    hide Inv;
    if k > 0 {
      var a, rest := Elsewhere(EventBus.Publishing(draft)), Publishes(draft, k - 1);
      var w1 := Next(size, w, a);
      PublishFits(size, w, draft);
      PublishesFill(size, w1, draft, k - 1);
      FilledThen(w, w1, Exec(size, w1, rest), k - 1);
      assert ([a] + rest)[1..] == rest;
    }
  }

  /** From a stream whose channel is full: a publish, a haul, another publish, and the rest. */
  function Overrun(draft: Event, k: nat, now: int): seq<Action>
    requires k > 0
  {
    [Elsewhere(EventBus.Publishing(draft))] + (Haul(now) + ([Elsewhere(EventBus.Publishing(draft))] + Hauls(k, now)))
  }

  lemma LastDelivered(size: Encoder, w: World)
    requires Inv(size, w) && Flowing(w) && Channel(w).queue == []
    requires var p := w.bus.published;
             |p| > 0 && |p| !in Channel(w).dropped && Acceptable(size, p[|p| - 1])
    ensures w.log.lastSequence == |w.bus.published|
  {
    hide Surviving, LostByUs, Acceptable, EventBus.Kept;
    var p := w.bus.published;
    if w.log.lastSequence < |p| {
      NothingBeyond(size, w.stream.value, Channel(w), p, w.log.lastSequence, |p| - 1);
    }
  }

  /** A dropped event that the cursor passes on either side of a publish is lost. */
  lemma PassedIsLost(size: Encoder, w1: World, w2: World, w3: World, w4: World, m: nat, j: nat, k: nat)
    requires Flowing(w1) && Hauled(size, w1, w2, j) && Flowing(w3) && Hauled(size, w3, w4, k)
    requires w3.log == w2.log && w3.lost == w2.lost && w2.bus.published <= w3.bus.published
    requires m in Channel(w1).dropped && m in Channel(w3).dropped
    requires w1.log.lastSequence < m <= w4.log.lastSequence && m <= |w1.bus.published|
    requires Acceptable(size, w1.bus.published[m - 1])
    ensures m in w4.lost
  {
  }

  /** Hauling the whole of a full channel brings the newest event. */
  lemma NewestArrives(size: Encoder, w: World, now: int)
    requires Inv(size, w) && Flowing(w)
    requires var p := w.bus.published;
             |p| > 0 && |p| !in Channel(w).dropped && Acceptable(size, p[|p| - 1])
    ensures var w', k := Exec(size, w, Hauls(|Channel(w).queue|, now)), |Channel(w).queue|;
            Hauled(size, w, w', k) && w'.log.lastSequence == |w.bus.published|
  {
    hide Inv, Hauls, Exec, Recorded, Acceptable;
    HaulMany(size, w, |Channel(w).queue|, now);
    LastDelivered(size, Exec(size, w, Hauls(|Channel(w).queue|, now)));
  }

  lemma DropsBehind(size: Encoder, w: World)
    requires Inv(size, w) && Flowing(w)
    ensures forall d :: d in Channel(w).dropped ==> d <= |w.bus.published|
  {
    hide Pipe, Surviving, LostByUs;
    assert EventBus.SubInv(Channel(w), w.bus.published);
  }

  /** A haul from a full channel and a publish: the channel is full again and holds the newest. */
  lemma RoomForNewest(size: Encoder, w: World, draft: Event, now: int)
    requires Inv(size, w) && Flowing(w) && |Channel(w).queue| == Channel(w).cap > 0
    ensures var w2 := Exec(size, w, Haul(now));
            var w3 := Next(size, w2, Elsewhere(EventBus.Publishing(draft)));
            && Hauled(size, w, w2, 1) && Inv(size, w3) && Flowing(w3)
            && w3.log == w2.log && w3.lost == w2.lost && w3.marks == w.marks && w3.refusals == w.refusals
            && w3.bus.published == w.bus.published + [draft.(sequence := |w.bus.published| + 1)]
            && |Channel(w3).queue| == Channel(w).cap && Channel(w3).dropped == Channel(w).dropped
            && |w3.bus.published| !in Channel(w3).dropped
  {
    DropsBehind(size, w);
    hide Inv, Exec, Next, Recorded, AddTo, Overtaken;
    HaulFirst(size, w, now);
    HaulOne(size, w, now);
    PublishInto(size, Exec(size, w, Haul(now)), draft);
  }

  /** With the newest event dropped: one haul makes room, and the next publish gets through. */
  lemma Overtakes(size: Encoder, w1: World, draft: Event, now: int)
    requires Inv(size, w1) && Flowing(w1) && |Channel(w1).queue| == Channel(w1).cap > 0
    requires forall n: nat {:trigger draft.(sequence := n)} :: Acceptable(size, draft.(sequence := n))
    requires var p := w1.bus.published;
             |p| in Channel(w1).dropped && w1.log.lastSequence < |p| && p[|p| - 1] == draft.(sequence := |p|)
    ensures var w' := Exec(size, Next(size, Exec(size, w1, Haul(now)), Elsewhere(EventBus.Publishing(draft))),
                           Hauls(Channel(w1).cap, now));
            && |w1.bus.published| in w'.lost && w'.log.lastSequence == |w1.bus.published| + 1
            && w'.marks == w1.marks && w'.refusals == w1.refusals
  {
    hide Inv, Hauls, Exec, Next, Acceptable, Recorded;
    var cap, m := Channel(w1).cap, |w1.bus.published|;
    RoomForNewest(size, w1, draft, now);
    var w2 := Exec(size, w1, Haul(now));
    var w3 := Next(size, w2, Elsewhere(EventBus.Publishing(draft)));
    NewestArrives(size, w3, now);
    PassedIsLost(size, w1, w2, w3, Exec(size, w3, Hauls(cap, now)), m, 1, cap);
  }

  /** The first publish is dropped, the second delivered: the cursor passes the dropped event,
      which is lost, and neither a refusal nor a marker tells. */
  lemma OverrunLoses(size: Encoder, w: World, draft: Event, now: int)
    requires Inv(size, w) && Flowing(w) && |Channel(w).queue| == Channel(w).cap > 0
    requires forall n: nat {:trigger draft.(sequence := n)} :: Acceptable(size, draft.(sequence := n))
    ensures var w', m := Exec(size, w, Overrun(draft, Channel(w).cap, now)), |w.bus.published| + 1;
            m in w'.lost && w'.log.lastSequence == m + 1 && w'.marks == w.marks && w'.refusals == w.refusals
  {
    PublishInto(size, w, draft);
    Overtakes(size, Next(size, w, Elsewhere(EventBus.Publishing(draft))), draft, now);
    OverrunScript(size, w, draft, Channel(w).cap, now);
  }

  lemma OverrunScript(size: Encoder, w: World, draft: Event, k: nat, now: int)
    requires k > 0
    ensures var a := Elsewhere(EventBus.Publishing(draft));
            Exec(size, w, Overrun(draft, k, now)) ==
            Exec(size, Next(size, Exec(size, Next(size, w, a), Haul(now)), a), Hauls(k, now))
  {
    var a := Elsewhere(EventBus.Publishing(draft));
    var tail := [a] + Hauls(k, now);
    assert tail[1..] == Hauls(k, now);
    ExecAppend(size, Next(size, w, a), Haul(now), tail);
    assert Overrun(draft, k, now)[1..] == Haul(now) + tail;
  }

  /** Contrary to the comment on Publish, a dropped event need not show as a history gap: from a
      fresh start, event 65 is lost and event 66 accepted with no refusal and no gap marker. */
  lemma DropGoesUnreported(size: Encoder, maxEvents: int, draft: Event, now: int)
    requires forall n: nat {:trigger draft.(sequence := n)} :: Acceptable(size, draft.(sequence := n))
    ensures var w := Reach(size, maxEvents, REOPEN + (Publishes(draft, 64) + Overrun(draft, 64, now)));
            65 in w.lost && w.log.lastSequence == 66 && w.refusals == 0 && w.marks == 0
  {
    hide Inv, Exec, Publishes, Overrun;
    var w0 := Start(maxEvents);
    StartInv(size, maxEvents);
    Reopened(size, w0);
    var w1 := Exec(size, w0, REOPEN);
    PublishesFill(size, w1, draft, 64);
    var w2 := Exec(size, w1, Publishes(draft, 64));
    OverrunLoses(size, w2, draft, now);
    ExecAppend(size, w0, REOPEN, Publishes(draft, 64) + Overrun(draft, 64, now));
    ExecAppend(size, w1, Publishes(draft, 64), Overrun(draft, 64, now));
  }

  const MISSED_REFUSAL: seq<Action> := [Open, Serve, Refusal, End]

  /** Nor is a refusal always marked: when the loop looks at a finished stream whose event channel
      is closed next to the waiting resync error, it may see only the closed channel. */
  lemma RefusalGoesUnmarked(size: Encoder, w: World)
    requires w.stream.None? && EventBus.Refuses(w.bus, w.log.lastSequence)
    ensures var w' := Exec(size, w, MISSED_REFUSAL);
            && w'.refusals == w.refusals + 1 && w'.marks == w.marks && w'.hidden == w.hidden + 1
            && w'.log == w.log && w'.stream.None?
  {
    var w1 := Next(size, w, Open);
    var w2 := Next(size, w1, Serve);
    var w3 := Next(size, w2, Refusal);
    assert MISSED_REFUSAL[1..] == [Serve, Refusal, End] && [Serve, Refusal, End][1..] == [Refusal, End];
    assert [Refusal, End][1..] == [End] && [End][1..] == [];
    assert Exec(size, w, MISSED_REFUSAL) == Exec(size, w3, [End]);
  }

  /** From the start: more publishes than the window holds, and then a subscribe whose refusal
      leaves no marker. */
  lemma UnmarkedFromStart(size: Encoder, maxEvents: int, draft: Event, k: nat)
    requires k > if maxEvents > 0 then maxEvents else 2000
    ensures var w := Reach(size, maxEvents, Publishes(draft, k) + MISSED_REFUSAL);
            w.refusals == 1 && w.marks == 0 && w.hidden == 1 && w.stream.None?
  {
    hide Exec, Publishes;
    StuckIfEvicted(size, maxEvents, draft, k);
    ReachInv(size, maxEvents, Publishes(draft, k));
    RefusalGoesUnmarked(size, Reach(size, maxEvents, Publishes(draft, k)));
    ExecAppend(size, Start(maxEvents), Publishes(draft, k), MISSED_REFUSAL);
  }
}
