// The bus as the source keeps it: mutable fields and channels shared with their receivers
// (bottle-agent/internal/eventbus/eventbus.go:19-124), proved against the state functions.
module LiveBus {
  import opened Prelude
  import opened Events
  import EventBus

  /** A buffered channel with one receiver. The ghost fields record its history. */
  class Chan {
    const cap: nat
    var queue: seq<Event>
    var closed: bool
    ghost const from: nat
    ghost const at: nat
    ghost var taken: seq<Event>
    ghost var dropped: set<nat>

    constructor (cap: nat, ghost from: nat, ghost at: nat)
      ensures State() == EventBus.Sub(from, at, [], [], cap, {}) && !closed
    {
      this.cap, this.from, this.at := cap, from, at;
      queue, closed, taken, dropped := [], false, [], {};
    }

    ghost function State(): EventBus.Sub
      reads this
    {
      EventBus.Sub(from, at, taken, queue, cap, dropped)
    }

    /** A send that gives up when the channel is full. */
    method Offer(e: Event)
      requires !closed
      modifies this
      ensures State() == EventBus.Offer(old(State()), e) && !closed
    {
      if |queue| < cap {
        queue := queue + [e];
      } else {
        dropped := dropped + {e.sequence};
      }
    }

    /** Sends that find room. */
    method Fill(events: seq<Event>)
      requires !closed && |queue| + |events| <= cap
      modifies this
      ensures State() == old(State()).(queue := old(queue) + events) && !closed
    {
      for i := 0 to |events|
        invariant State() == old(State()).(queue := old(queue) + events[..i]) && !closed
      {
        Offer(events[i]);
      }
      assert events[..|events|] == events;
    }

    /** A receive that finds an event, finds the channel closed, or would wait. */
    method Receive() returns (e: Option<Event>, open: bool)
      modifies this
      ensures closed == old(closed) && open == (queue + old(queue) != [] || !closed)
      ensures old(queue) == [] ==> e.None? && State() == old(State())
      ensures old(queue) != [] ==>
                && e == Some(old(queue)[0])
                && State() == old(State()).(taken := old(taken) + [old(queue)[0]], queue := old(queue)[1..])
    {
      if queue == [] {
        e, open := None, !closed;
      } else {
        e, open := Some(queue[0]), true;
        taken, queue := taken + [queue[0]], queue[1..];
      }
    }

    method Close()
      requires !closed
      modifies this
      ensures closed && State() == old(State())
    {
      closed := true;
    }
  }

  class Bus {
    const maxEvents: nat
    var retained: seq<Event>
    var nextSequence: nat
    var subs: map<nat, Chan>
    var nextSubID: nat
    ghost var published: seq<Event>

    ghost function State(): EventBus.Bus
      reads this, subs.Values
    {
      EventBus.Bus(maxEvents, retained, nextSequence, map id | id in subs :: subs[id].State(), nextSubID, published)
    }

    /** Open channels, one per subscriber. */
    ghost predicate Valid()
      reads this, subs.Values
    {
      && (forall id :: id in subs ==> !subs[id].closed)
      && (forall i, j :: i in subs && j in subs && i != j ==> subs[i] != subs[j])
    }

    constructor (maxEvents: int)
      ensures Valid() && State() == EventBus.New(maxEvents)
      ensures this.maxEvents == (if maxEvents > 0 then maxEvents else 2000)
      ensures retained == [] && nextSequence == 0 && subs == map[]
    {
      this.maxEvents := if maxEvents <= 0 then EventBus.DEFAULT_MAX_EVENTS else maxEvents;
      retained, nextSequence, subs, nextSubID, published := [], 0, map[], 0, [];
    }

    method Publish(draft: Event) returns (event: Event)
      requires Valid()
      modifies this, subs.Values
      ensures Valid() && State() == EventBus.Publish(old(State()), draft)
      ensures subs == old(subs) && event == draft.(sequence := nextSequence)
    {
      hide EventBus.Retain, EventBus.Offer;
      event := Record(draft);
      FanOut(event);
      assert State().subs == EventBus.Publish(old(State()), draft).subs;
    }

    /** The part of a publish that numbers and retains the event. */
    method Record(draft: Event) returns (event: Event)
      modifies `nextSequence, `retained, `published
      ensures nextSequence == old(nextSequence) + 1 && event == draft.(sequence := nextSequence)
      ensures retained == EventBus.Retain(old(retained), event, maxEvents)
      ensures published == old(published) + [event]
    {
      nextSequence := nextSequence + 1;
      event := draft.(sequence := nextSequence);
      retained := retained + [event];
      if |retained| > maxEvents {
        retained := retained[|retained| - maxEvents..];
      }
      published := published + [event];
    }

    /** The sends of one publish, in whatever order the map yields its channels. */
    method FanOut(event: Event)
      requires Valid()
      modifies subs.Values
      ensures Valid()
      ensures forall id :: id in subs ==> subs[id].State() == EventBus.Offer(old(subs[id].State()), event)
    {
      var waiting := subs.Keys;
      while waiting != {}
        invariant waiting <= subs.Keys && Valid()
        invariant forall id :: id in waiting ==> subs[id].State() == old(subs[id].State())
        invariant forall id :: id in subs && id !in waiting ==>
                    subs[id].State() == EventBus.Offer(old(subs[id].State()), event)
        decreases waiting
      {
        var id :| id in waiting;
        subs[id].Offer(event);
        waiting := waiting - {id};
      }
    }

    method Replay(after: nat) returns (backlog: seq<Event>)
      ensures backlog == EventBus.Backlog(retained, after)
    {
      backlog := [];
      for i := 0 to |retained|
        invariant backlog + EventBus.Backlog(retained[i..], after) == EventBus.Backlog(retained, after)
      {
        assert retained[i..][1..] == retained[i + 1..];
        if retained[i].sequence > after {
          backlog := backlog + [retained[i]];
        }
      }
    }

    /** A new channel holding every retained event after the cursor, with room for 64 more. */
    method Prepare(after: nat) returns (ch: Chan)
      ensures fresh(ch) && !ch.closed
      ensures var backlog := EventBus.Backlog(retained, after);
              ch.State() == EventBus.Sub(after, nextSequence, [], backlog, |backlog| + EventBus.HEADROOM, {})
    {
      hide EventBus.Backlog;
      var backlog := Replay(after);
      ch := new Chan(|backlog| + EventBus.HEADROOM, after, nextSequence);
      ch.Fill(backlog);
    }

    /** The channel of a new subscription, or None for a history gap. */
    method Subscribe(after: nat) returns (ch: Option<Chan>)
      requires Valid()
      modifies this
      ensures Valid() && State() == EventBus.Subscribe(old(State()), after)
      ensures ch.None? <==> EventBus.Refuses(old(State()), after)
      ensures ch.Some? ==> fresh(ch.value) && subs == old(subs)[old(nextSubID) := ch.value]
    {
      hide EventBus.Backlog;
      if after > nextSequence || (|retained| > 0 && after + 1 < retained[0].sequence) {
        return None;
      }
      var c := Prepare(after);
      subs := subs[nextSubID := c];
      nextSubID := nextSubID + 1;
      assert State().subs == EventBus.Subscribe(old(State()), after).subs;
      return Some(c);
    }

    method Unsubscribe(id: nat)
      requires Valid()
      modifies this, subs.Values
      ensures Valid() && State() == EventBus.Unsubscribe(old(State()), id)
      ensures id in old(subs) ==> old(subs[id]).closed && old(subs[id]).State() == old(subs[id].State())
    {
      if id in subs {
        var ch := subs[id];
        subs := subs - {id};
        ch.Close();
      }
      assert State().subs == EventBus.Unsubscribe(old(State()), id).subs;
    }
  }
}
