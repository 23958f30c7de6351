// The event record, what a valid one is, and the log of everything a client was handed
// (bottle-tui/internal/model/events.go:38-46, 87-112, 166-185, 237-247).
module Events {
  import opened Prelude
  import opened Redaction

  datatype Event = Event(
    sequence: nat, occurredAt: int, severity: string, source: string, kind: string,
    payload: Option<map<string, Value>>)

  /** The size of an event's JSON form, or None when it has none. */
  type Encoder = Event -> Option<nat>

  const KIND_MALFORMED := "client_malformed_event"
  const KIND_HISTORY_GAP := "event_history_gap"
  const KIND_OVERFLOW := "client_buffer_overflow"
  const GAP_REASON := "server replay window expired; status refreshed"

  /** None for a valid event, otherwise the reason; a zero timestamp is 0. */
  function ValidationError(e: Event): Option<string>
  {
    if e.occurredAt == 0 || e.source == "" || e.kind == "" then
      Some("event requires timestamp, source, and kind")
    else if e.severity in {"debug", "info", "warn", "error"} then None
    else Some("invalid severity \"" + e.severity + "\"")
  }

  function Redact(e: Event): Event
  {
    e.(payload := if e.payload.None? then None else Some(RedactMap(e.payload.value)))
  }

  /** An event that the client keeps: valid, and encodable once it is redacted. */
  predicate Acceptable(size: Encoder, e: Event)
  {
    ValidationError(e).None? && size(Redact(e)).Some?
  }

  function Note(kind: string, now: int, key: string, text: string): Event
  {
    Event(0, now, "warn", "client", kind, Some(map[key := Text(text)]))
  }

  // ---- The client's log ----

  /** Everything appended so far, the accepted events among it, and the resume cursor. */
  datatype Log = Log(history: seq<Event>, accepted: seq<Event>, lastSequence: nat)

  const EMPTY_LOG := Log([], [], 0)

  /** What one call of Add appends. */
  function Appended(size: Encoder, e: Event, now: int): Event
  {
    if ValidationError(e).Some? then Note(KIND_MALFORMED, now, "reason", ValidationError(e).value)
    else if size(Redact(e)).None? then Note(KIND_MALFORMED, now, "reason", "event cannot be encoded")
    else Redact(e)
  }

  function AddTo(size: Encoder, log: Log, e: Event, now: int): Log
  {
    var history := log.history + [Appended(size, e, now)];
    if Acceptable(size, e) then
      Log(history, log.accepted + [Redact(e)], Max(log.lastSequence, e.sequence))
    else log.(history := history)
  }

  function MarkGap(log: Log, reason: string, now: int): Log
  {
    log.(history := log.history + [Note(KIND_HISTORY_GAP, now, "reason", reason)])
  }

  // ---- What an entry of the log reads as ----

  /** A payload in which no path that does not first go through a list in a list finds, at or below
      a sensitive key, anything but the constant; every other path leads somewhere exactly when it
      did before, to the same leaf. */
  ghost predicate CleanPayload(before: map<string, Value>, after: map<string, Value>)
  {
    && after.Keys == before.Keys
    && forall path: seq<Hop> | path != [] ::
         var x, y := Lookup(before, path), Lookup(after, path);
         if HasSensitive(path) && !Escapes(path) then y == None || y == Some(Text("[REDACTED]"))
         else (y.Some? <==> x.Some?) && (x.Some? && Leaf(x.value) ==> y == x)
  }

  /** The same event but for its payload, which is clean. */
  ghost predicate Cleaned(e: Event, entry: Event)
  {
    && entry == e.(payload := entry.payload)
    && (e.payload.Some? <==> entry.payload.Some?)
    && (e.payload.Some? ==> CleanPayload(e.payload.value, entry.payload.value))
  }

  lemma RedactCleans(e: Event)
    ensures Cleaned(e, Redact(e))
  {
    if e.payload.Some? {
      PayloadCleans(e.payload.value);
    }
  }

  lemma PayloadCleans(payload: map<string, Value>)
    ensures CleanPayload(payload, RedactMap(payload))
  {
    hide Lookup, HasSensitive, Escapes, Sensitive;
    forall path: seq<Hop> | path != []
      ensures var x, y := Lookup(payload, path), Lookup(RedactMap(payload), path);
              if HasSensitive(path) && !Escapes(path) then y == None || y == Some(Text("[REDACTED]"))
              else (y.Some? <==> x.Some?) && (x.Some? && Leaf(x.value) ==> y == x)
    {
      RedactionByPath(payload, path);
      if HasSensitive(path) && !HasSensitive(path[..|path| - 1]) { SensitiveLast(path); }
      if !HasSensitive(path) { NothingSensitive(path); }
    }
  }

  /** Which events are valid, and what is said of the others. */
  lemma ValidWhen(e: Event)
    ensures ValidationError(e).None? <==>
              e.occurredAt != 0 && |e.source| > 0 && |e.kind| > 0
              && (e.severity == "debug" || e.severity == "info" || e.severity == "warn" || e.severity == "error")
    ensures ValidationError(e).Some? && e.occurredAt != 0 && |e.source| > 0 && |e.kind| > 0 ==>
              ValidationError(e) == Some("invalid severity \"" + e.severity + "\"")
    ensures e.occurredAt == 0 || |e.source| == 0 || |e.kind| == 0 ==>
              ValidationError(e) == Some("event requires timestamp, source, and kind")
  {
  }

  /** What one call of Add appends: a clean copy of an acceptable event, and for any other a marker
      of the client's own that gives the reason. */
  lemma AppendedReads(size: Encoder, e: Event, now: int)
    ensures Acceptable(size, e) ==> Cleaned(e, Appended(size, e, now))
    ensures !Acceptable(size, e) ==>
              Appended(size, e, now) ==
              Event(0, now, "warn", "client", "client_malformed_event",
                    Some(map["reason" := Text(if ValidationError(e).Some? then ValidationError(e).value
                                              else "event cannot be encoded")]))
  {
    RedactCleans(e);
    hide Cleaned, Redact;
  }

  lemma GapReads(log: Log, reason: string, now: int)
    ensures MarkGap(log, reason, now).history ==
            log.history + [Event(0, now, "warn", "client", "event_history_gap", Some(map["reason" := Text(reason)]))]
    ensures MarkGap(log, reason, now).accepted == log.accepted
            && MarkGap(log, reason, now).lastSequence == log.lastSequence
  {
  }
}
