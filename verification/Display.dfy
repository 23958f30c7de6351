// What the laptop shows of the Pi's events, from end to end: the replication system's log seen
// through the bounded buffer (bottle-tui/internal/model/events.go:87-235, 332-376).
module Display {
  import opened Prelude
  import opened Events
  import opened Replication
  import opened ReplicationResults
  import opened Retention

  lemma NumberedOne(es: seq<Event>, e: Event)
    ensures Numbered(es + [e]) == Numbered(es) + (if e.sequence > 0 then [e] else [])
  {
    assert (es + [e])[..|es|] == es;
  }

  /** The accepted events are exactly the numbered entries of the history: an accepted event keeps
      its number, and the client's own entries have none. */
  lemma StepLogs(size: Encoder, w: World, a: Action)
    requires Inv(size, w) && Numbered(w.log.history) == w.log.accepted
    ensures Numbered(Next(size, w, a).log.history) == Next(size, w, a).log.accepted
  {
    hide Pipe, Surviving, Acceptable;
    match a
    case Deliver(now) =>
      if w.stream.Some? && w.stream.value.out != [] {
        var e := w.stream.value.out[0];
        HeadOfOut(size, w);
        assert Redact(e).sequence == e.sequence > 0;
        AppendedNumber(size, e, now);
        NumberedOne(w.log.history, Appended(size, e, now));
      }
    case Fail(now) =>
      if w.stream.Some? && w.stream.value.errs.Some? {
        NumberedOne(w.log.history, Note(KIND_HISTORY_GAP, now, "reason", GAP_REASON));
      }
    case _ =>
  }

  lemma AppendedNumber(size: Encoder, e: Event, now: int)
    ensures if Acceptable(size, e) then Appended(size, e, now) == Redact(e) else Appended(size, e, now).sequence == 0
  {
  }

  lemma {:induction false} RunLogs(size: Encoder, w: World, actions: seq<Action>)
    requires Inv(size, w) && Numbered(w.log.history) == w.log.accepted
    ensures Numbered(Exec(size, w, actions).log.history) == Exec(size, w, actions).log.accepted
    decreases |actions|
  {
    hide Inv, Next;
    if actions != [] {
      NextKeeps(size, w, actions[0]);
      StepLogs(size, w, actions[0]);
      RunLogs(size, Next(size, w, actions[0]), actions[1..]);
    }
  }

  /** In every run, whatever the bounds of the buffer and whether or not it has overflowed: the
      Pi's events in it are the last of the accepted ones, without a gap among those, in the order
      of their numbers, each once, and each a clean copy of the event published under its number:
      the same but for its payload, where nothing sensitive can be read. */
  lemma ShownInOrder(size: Encoder, maxEvents: int, actions: seq<Action>, c: Config, marker: Option<Event>)
    returns (k: nat)
    requires marker.Some? ==> marker.value.sequence == 0
    ensures var w := Reach(size, maxEvents, actions);
            var shown := Numbered(Keep(c, marker, w.log.history));
            && k <= |w.log.accepted| && shown == w.log.accepted[k..]
            && (forall i, j :: 0 <= i < j < |shown| ==> shown[i].sequence < shown[j].sequence)
            && (forall i :: 0 <= i < |shown| ==> CopyOf(w.bus.published, shown[i]))
            && (forall i :: 0 <= i < |shown| ==> Cleaned(w.bus.published[shown[i].sequence - 1], shown[i]))
  {
    hide Inv, Exec, Keep, Cleaned, Redact;
    StartInv(size, maxEvents);
    RunLogs(size, Start(maxEvents), actions);
    AcceptedInOrder(size, maxEvents, actions);
    var w := Reach(size, maxEvents, actions);
    k := KeepsNewest(c, marker, w.log.history);
    forall e | CopyOf(w.bus.published, e) ensures Cleaned(w.bus.published[e.sequence - 1], e) {
      RedactCleans(w.bus.published[e.sequence - 1]);
    }
  }

  /** The same of what a filter shows of the buffer: every numbered event in view is a clean copy of
      the event published under its number. */
  lemma ViewIsClean(size: Encoder, maxEvents: int, actions: seq<Action>, c: Config, marker: Option<Event>, f: Filter,
                    e: Event)
    requires marker.Some? ==> marker.value.sequence == 0
    requires e in Select(f, Keep(c, marker, Reach(size, maxEvents, actions).log.history)) && e.sequence > 0
    ensures var p := Reach(size, maxEvents, actions).bus.published;
            e.sequence <= |p| && Cleaned(p[e.sequence - 1], e)
  {
    hide Inv, Exec, Cleaned, Redact;
    var w := Reach(size, maxEvents, actions);
    var kept := Keep(c, marker, w.log.history);
    SelectedWasThere(f, kept, e);
    KeptIsNumbered(kept, e);
    var k := ShownInOrder(size, maxEvents, actions, c, marker);
  }

  lemma {:induction false} KeptIsNumbered(es: seq<Event>, e: Event)
    requires e in es && e.sequence > 0
    ensures e in Numbered(es)
    decreases |es|
  {
    if e in es[..|es| - 1] {
      KeptIsNumbered(es[..|es| - 1], e);
    }
  }
}
