// The loop that keeps the laptop's buffer fed (bottle-tui/internal/model/events.go:309-403):
// open a stream at the cursor, receive until it fails, wait, and open again.
module Consumer {
  import opened Prelude
  import opened Events
  import opened Redaction
  import opened Retention
  import ClientBuffer

  datatype Snapshot = Snapshot(survey: string, observedAt: int)

  /** What one receive yields: an event, or a resync error and the status fetched after it. */
  datatype Received =
    | Arrived(event: Event, now: int, later: int)
    | Resync(fetched: Option<Snapshot>, now: int, later: int)

  /** One attempt: the stream cannot be opened, or it yields results and then fails, which leads
      to another attempt, or is given up because the context was cancelled. */
  datatype Attempt = Unopened | Opened(results: seq<Received>, cancelled: bool)

  // ---- Reference ----

  function Entry(size: Encoder, r: Received): Event
  {
    match r
    case Arrived(e, now, _) => Appended(size, e, now)
    case Resync(_, now, _) => Note(KIND_HISTORY_GAP, now, "reason", GAP_REASON)
  }

  function Receive(size: Encoder, log: Log, r: Received): Log
  {
    match r
    case Arrived(e, now, _) => AddTo(size, log, e, now)
    case Resync(_, now, _) => MarkGap(log, GAP_REASON, now)
  }

  function ReceiveAll(size: Encoder, log: Log, results: seq<Received>): Log
  {
    if results == [] then log
    else Receive(size, ReceiveAll(size, log, results[..|results| - 1]), results[|results| - 1])
  }

  function Results(a: Attempt): seq<Received> { if a.Opened? then a.results else [] }

  /** A cancelled attempt ends the loop. */
  predicate Ended(attempts: seq<Attempt>)
  {
    exists i :: 0 <= i < |attempts| && attempts[i].Opened? && attempts[i].cancelled
  }

  /** The results of the attempts that are made, and how many there are. */
  function Consumed(attempts: seq<Attempt>): seq<Received>
  {
    if attempts == [] then []
    else
      var earlier := attempts[..|attempts| - 1];
      Consumed(earlier) + (if Ended(earlier) then [] else Results(attempts[|attempts| - 1]))
  }

  function Made(attempts: seq<Attempt>): nat
  {
    if attempts == [] then 0
    else
      var earlier := attempts[..|attempts| - 1];
      Made(earlier) + (if Ended(earlier) then 0 else 1)
  }

  lemma {:induction false} NothingAfterEnd(attempts: seq<Attempt>, k: nat)
    requires k <= |attempts| && Ended(attempts[..k])
    ensures Consumed(attempts) == Consumed(attempts[..k]) && Made(attempts) == Made(attempts[..k])
    decreases |attempts|
  {
    if k == |attempts| {
      assert attempts[..k] == attempts;
    } else {
      var earlier := attempts[..|attempts| - 1];
      assert earlier[..k] == attempts[..k];
      var i :| 0 <= i < k && attempts[..k][i].Opened? && attempts[..k][i].cancelled;
      assert earlier[i] == attempts[..k][i];
      NothingAfterEnd(earlier, k);
    }
  }

  lemma NoAttempts(attempts: seq<Attempt>)
    ensures Consumed(attempts[..0]) == [] && Made(attempts[..0]) == 0 && !Ended(attempts[..0])
  {
  }

  /** The next attempt of a loop that has not ended. */
  lemma OneMore(attempts: seq<Attempt>, i: nat)
    requires i < |attempts| && !Ended(attempts[..i])
    ensures Consumed(attempts[..i + 1]) ==
            Consumed(attempts[..i]) + (if attempts[i].Opened? then attempts[i].results else [])
    ensures Made(attempts[..i + 1]) == Made(attempts[..i]) + 1
    ensures Ended(attempts[..i + 1]) <==> attempts[i].Opened? && attempts[i].cancelled
  {
    var next := attempts[..i + 1];
    assert next[..i] == attempts[..i] && next[i] == attempts[i];
    assert forall j :: 0 <= j < i ==> next[j] == attempts[..i][j];
  }

  function Largest(es: seq<Event>): nat
  {
    if es == [] then 0 else Max(Largest(es[..|es| - 1]), es[|es| - 1].sequence)
  }

  /** The snapshot a result brings, if any: a status event brings one whether or not the buffer
      accepts it, and so does a status fetched after a resync error. */
  function Brought(r: Received): Option<Snapshot>
  {
    match r
    case Arrived(e, _, _) =>
      if e.kind == "status" && e.payload.Some? && "scan_status" in e.payload.value
         && e.payload.value["scan_status"].Text?
      then Some(Snapshot(e.payload.value["scan_status"].s, e.occurredAt)) else None
    case Resync(fetched, _, _) => fetched
  }

  /** Exactly what brings a snapshot, and which. */
  lemma BroughtBy(r: Received, s: Snapshot)
    ensures Brought(r) == Some(s) <==>
              if r.Resync? then r.fetched == Some(s)
              else r.event.kind == "status" && r.event.payload.Some? && "scan_status" in r.event.payload.value
                   && r.event.payload.value["scan_status"] == Text(s.survey) && s.observedAt == r.event.occurredAt
  {
  }

  function StatusAfter(s: Snapshot, r: Received): Snapshot
  {
    if Brought(r).Some? then Brought(r).value else s
  }

  function StatusAll(s: Snapshot, results: seq<Received>): Snapshot
  {
    if results == [] then s else StatusAfter(StatusAll(s, results[..|results| - 1]), results[|results| - 1])
  }

  /** What the entry of a result reads as: a clean copy of an acceptable event, and otherwise a
      marker of the client's own. */
  lemma EntryReads(size: Encoder, r: Received)
    ensures r.Arrived? && Acceptable(size, r.event) ==> Cleaned(r.event, Entry(size, r))
    ensures r.Arrived? && !Acceptable(size, r.event) ==>
              Entry(size, r).(payload := None) == Event(0, r.now, "warn", "client", "client_malformed_event", None)
    ensures r.Resync? ==>
              Entry(size, r) ==
              Event(0, r.now, "warn", "client", "event_history_gap",
                    Some(map["reason" := Text("server replay window expired; status refreshed")]))
  {
    if r.Arrived? { AppendedReads(size, r.event, r.now); }
    hide Cleaned, Acceptable;
  }

  // ---- What receiving does to the log ----

  function AcceptedOf(size: Encoder, results: seq<Received>): seq<Event>
  {
    if results == [] then []
    else
      var r := results[|results| - 1];
      AcceptedOf(size, results[..|results| - 1])
      + (if r.Arrived? && Acceptable(size, r.event) then [Redact(r.event)] else [])
  }

  /** Every result adds exactly one entry, in order: a resync error its gap marker, an event its
      redaction or its malformed marker. */
  lemma {:induction false} EntryPerResult(size: Encoder, log: Log, results: seq<Received>)
    ensures |ReceiveAll(size, log, results).history| == |log.history| + |results|
    ensures log.history <= ReceiveAll(size, log, results).history
    ensures forall i :: 0 <= i < |results| ==>
              ReceiveAll(size, log, results).history[|log.history| + i] == Entry(size, results[i])
    decreases |results|
  {
    hide Appended, Redact, Note;
    if results != [] {
      EntryPerResult(size, log, results[..|results| - 1]);
    }
  }

  /** Only acceptable events are accepted, and the cursor is the largest accepted number: markers,
      malformed events and eviction never move it. */
  lemma {:induction false} CursorIsLargest(size: Encoder, log: Log, results: seq<Received>)
    ensures ReceiveAll(size, log, results).accepted == log.accepted + AcceptedOf(size, results)
    ensures ReceiveAll(size, log, results).lastSequence == Max(log.lastSequence, Largest(AcceptedOf(size, results)))
    decreases |results|
  {
    if results != [] {
      var init, r := results[..|results| - 1], results[|results| - 1];
      CursorIsLargest(size, log, init);
      var acc, before := AcceptedOf(size, results), AcceptedOf(size, init);
      if r.Arrived? && Acceptable(size, r.event) {
        assert Redact(r.event).sequence == r.event.sequence;
        assert acc == before + [Redact(r.event)] && acc[..|acc| - 1] == before;
      } else {
        assert acc == before;
      }
    }
  }

  lemma NoResults(size: Encoder, log: Log, s: Snapshot)
    ensures ReceiveAll(size, log, []) == log && StatusAll(s, []) == s
  {
  }

  lemma {:induction false} ReceiveMore(size: Encoder, log: Log, a: seq<Received>, b: seq<Received>)
    ensures ReceiveAll(size, log, a + b) == ReceiveAll(size, ReceiveAll(size, log, a), b)
    decreases |b|
  {
    if b == [] {
      assert a + b == a;
    } else {
      assert (a + b)[..|a + b| - 1] == a + b[..|b| - 1];
      ReceiveMore(size, log, a, b[..|b| - 1]);
    }
  }

  lemma {:induction false} StatusMore(s: Snapshot, a: seq<Received>, b: seq<Received>)
    ensures StatusAll(s, a + b) == StatusAll(StatusAll(s, a), b)
    decreases |b|
  {
    if b == [] {
      assert a + b == a;
    } else {
      assert (a + b)[..|a + b| - 1] == a + b[..|b| - 1];
      StatusMore(s, a, b[..|b| - 1]);
    }
  }

  /** The snapshot is the one from the last result that brought one, or the one before. */
  lemma {:induction false} StatusIsLatest(s: Snapshot, results: seq<Received>, i: nat)
    requires i <= |results| && forall j :: i <= j < |results| ==> Brought(results[j]).None?
    ensures StatusAll(s, results) == if i > 0 && Brought(results[i - 1]).Some? then Brought(results[i - 1]).value
                                     else StatusAll(s, results[..i])
    decreases |results|
  {
    if i < |results| {
      var init := results[..|results| - 1];
      assert init[..i] == results[..i];
      StatusIsLatest(s, init, i);
    } else {
      assert results[..i] == results;
    }
  }

  // ---- The loop ----

  class Client {
    const buffer: ClientBuffer.Buffer
    var status: Snapshot

    constructor (buffer: ClientBuffer.Buffer)
      ensures this.buffer == buffer && status == Snapshot("", 0)
    {
      this.buffer, status := buffer, Snapshot("", 0);
    }

    /** Receives one stream to its end. */
    method Drain(results: seq<Received>)
      requires buffer.Valid()
      modifies this, buffer, buffer.store
      ensures buffer.Valid() && (buffer.store == old(buffer.store) || fresh(buffer.store))
      ensures buffer.log == ReceiveAll(buffer.config.size, old(buffer.log), results)
      ensures status == StatusAll(old(status), results)
    {
      hide Receive, StatusAfter, Retention.Keep, Retention.Total, Retention.Fits;
      for i := 0 to |results|
        invariant buffer.Valid() && (buffer.store == old(buffer.store) || fresh(buffer.store))
        invariant buffer.log == ReceiveAll(buffer.config.size, old(buffer.log), results[..i])
        invariant status == StatusAll(old(status), results[..i])
      {
        assert results[..i + 1][..i] == results[..i];
        Handle(results[i]);
      }
      assert results[..|results|] == results;
    }

    /** What the loop does with one result. */
    method Handle(r: Received)
      requires buffer.Valid()
      modifies this, buffer, buffer.store
      ensures buffer.Valid() && (buffer.store == old(buffer.store) || fresh(buffer.store))
      ensures buffer.log == Receive(buffer.config.size, old(buffer.log), r)
      ensures status == StatusAfter(old(status), r)
    {
      hide AddTo, MarkGap, Retention.Keep, Retention.Total, Retention.Fits, Cleaned, Acceptable;
      match r {
        case Arrived(e, now, later) =>
          var _ := buffer.Add(e, now, later);
          ApplyStatus(e);
        case Resync(fetched, now, later) =>
          buffer.MarkHistoryGap(GAP_REASON, now, later);
          if fetched.Some? {
            status := fetched.value;
          }
      }
    }

    method ApplyStatus(e: Event)
      modifies this`status
      ensures status == StatusAfter(old(status), Arrived(e, 0, 0))
      ensures status == if e.kind == "status" && e.payload.Some? && "scan_status" in e.payload.value
                           && e.payload.value["scan_status"].Text?
                        then Snapshot(e.payload.value["scan_status"].s, e.occurredAt) else old(status)
    {
      if e.kind != "status" || e.payload.None? || "scan_status" !in e.payload.value {
        return;
      }
      match e.payload.value["scan_status"]
      case Text(s) => status := Snapshot(s, e.occurredAt);
      case _ =>
    }

    /** One attempt: it asks for what follows the cursor, then takes what the stream yields. */
    method Try(a: Attempt) returns (cursor: nat)
      requires buffer.Valid()
      modifies this, buffer, buffer.store
      ensures buffer.Valid() && (buffer.store == old(buffer.store) || fresh(buffer.store))
      ensures cursor == old(buffer.log).lastSequence
      ensures buffer.log == ReceiveAll(buffer.config.size, old(buffer.log), Results(a))
      ensures status == StatusAll(old(status), Results(a))
    {
      cursor := buffer.LastSequence();
      match a
      case Unopened => NoResults(buffer.config.size, buffer.log, status);
      case Opened(results, _) => Drain(results);
    }

    /** Every attempt asks for what follows the largest number accepted so far; the buffer ends up
        with what all the results together make of it. */
    method Consume(attempts: seq<Attempt>) returns (opens: seq<nat>)
      requires buffer.Valid()
      modifies this, buffer, buffer.store
      ensures buffer.Valid()
      ensures buffer.log == ReceiveAll(buffer.config.size, old(buffer.log), Consumed(attempts))
      ensures status == StatusAll(old(status), Consumed(attempts))
      ensures |opens| == Made(attempts) <= |attempts|
      ensures forall i :: 0 <= i < |opens| ==> opens[i] == CursorAfter(old(buffer.log), attempts[..i])
    {
      hide ReceiveAll, StatusAll, AcceptedOf, Largest, Consumed, Made, Ended;
      opens := [];
      NoResults(buffer.config.size, buffer.log, status);
      NoAttempts(attempts);
      for i := 0 to |attempts|
        invariant buffer.Valid() && (buffer.store == old(buffer.store) || fresh(buffer.store))
        invariant buffer.log == ReceiveAll(buffer.config.size, old(buffer.log), Consumed(attempts[..i]))
        invariant status == StatusAll(old(status), Consumed(attempts[..i]))
        invariant |opens| == Made(attempts[..i]) == i && !Ended(attempts[..i])
        invariant forall j :: 0 <= j < i ==> opens[j] == CursorAfter(old(buffer.log), attempts[..j])
      {
        ghost var size, before := buffer.config.size, Consumed(attempts[..i]);
        CursorIsLargest(size, old(buffer.log), before);
        OneMore(attempts, i);
        ReceiveMore(size, old(buffer.log), before, Results(attempts[i]));
        StatusMore(old(status), before, Results(attempts[i]));
        var cursor := Try(attempts[i]);
        opens := opens + [cursor];
        if attempts[i].Opened? && attempts[i].cancelled {
          NothingAfterEnd(attempts, i + 1);
          return;
        }
      }
      assert attempts[..|attempts|] == attempts;
    }

    /** The largest number accepted before or by some attempts. */
    ghost function CursorAfter(log: Log, attempts: seq<Attempt>): nat
    {
      Max(log.lastSequence, Largest(AcceptedOf(buffer.config.size, Consumed(attempts))))
    }
  }
}
