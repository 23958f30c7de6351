// The laptop's bounded event buffer over an array that is resliced, regrown and shifted in place
// (bottle-tui/internal/model/events.go:65-259).
module ClientBuffer {
  import opened Prelude
  import opened Events
  import opened Retention
  import Redaction

  lemma Shifted(now: seq<Event>, was: seq<Event>, off: nat, end: nat)
    requires off + 2 <= end <= |was| == |now|
    requires now[off] == was[off] && forall k :: off < k < end - 1 ==> now[k] == was[k + 1]
    ensures now[off..end - 1] == [was[off]] + was[off..end][2..]
  {
  }

  class Buffer {
    const config: Config
    // The events slice: a window of its backing array.
    var store: array<Event>
    var off: nat
    var count: nat
    var bytes: nat
    var lastSequence: nat
    var filter: Filter
    var paused: bool
    var rendered: array<Event>
    var overflowed: bool
    // Everything ever appended, and the overflow marker once there is one.
    ghost var log: Log
    ghost var marker: Option<Event>

    ghost predicate Shaped()
      reads this
    {
      off + count <= store.Length && store != rendered && 0 < config.maxEvents && 0 < config.maxBytes
    }

    ghost function Entries(): seq<Event>
      requires Shaped()
      reads this, store
    {
      store[off..off + count]
    }

    /** The retained entries are a function of the whole history, and the buffer has overflowed
        exactly when the history does not fit. */
    ghost predicate Settled()
      reads this, store
    {
      && Shaped()
      && Entries() == Keep(config, marker, log.history)
      && overflowed == marker.Some? == !Fits(config, log.history, 0)
      && lastSequence == log.lastSequence
      && (marker.Some? ==> marker.value.sequence == 0)
    }

    /** ... and `bytes` is their size. */
    ghost predicate Valid()
      reads this, store
    {
      Settled() && bytes == Total(config, Entries())
    }

    /** What Visible shows. */
    ghost function View(): seq<Event>
      requires Shaped()
      reads this, store, rendered
    {
      if paused then rendered[..] else Select(filter, Entries())
    }

    constructor (maxEvents: int, maxBytes: int, size: Encoder)
      ensures Valid() && fresh(store) && fresh(rendered)
      ensures config.maxEvents == (if maxEvents > 0 then maxEvents else 5000)
      ensures config.maxBytes == (if maxBytes > 0 then maxBytes else 8388608) && config.size == size
      ensures config == NewConfig(maxEvents, maxBytes, size) && log == EMPTY_LOG && marker.None?
      ensures !paused && View() == [] && Honest()
    {
      config := NewConfig(maxEvents, maxBytes, size);
      store, off, count, bytes, lastSequence := new Event[0], 0, 0, 0, 0;
      filter, paused, rendered, overflowed := Filter(map[], map[], map[]), false, new Event[0], false;
      log, marker := EMPTY_LOG, None;
    }

    // ---- Slice operations ----

    /** append(events, e): into spare capacity, or into a larger copy. */
    method Push(e: Event)
      requires Shaped()
      modifies this`store, this`off, this`count, store
      ensures Shaped() && Entries() == old(Entries()) + [e]
      ensures store == old(store) || fresh(store)
    {
      if off + count == store.Length {
        var bigger := new Event[2 * count + 1];
        forall i | 0 <= i < count {
          bigger[i] := store[off + i];
        }
        store, off := bigger, 0;
      }
      store[off + count] := e;
      count := count + 1;
    }

    /** append([]Event{marker}, events...): a new array. */
    method Prepend(e: Event)
      requires Shaped()
      modifies this`store, this`off, this`count
      ensures Shaped() && Entries() == [e] + old(Entries()) && fresh(store)
    {
      var a := new Event[count + 1];
      forall i | 0 <= i < count {
        a[i + 1] := store[off + i];
      }
      a[0] := e;
      store, off, count := a, 0, count + 1;
    }

    /** append(events[:1], events[2:]...): the tail moves down by one in place. */
    method DropSecond()
      requires Shaped() && count > 1
      modifies this`count, store
      ensures Shaped() && Entries() == [old(Entries())[0]] + old(Entries())[2..]
    {
      ghost var was := store[..];
      forall i | off < i < off + count - 1 {
        store[i] := store[i + 1];
      }
      Shifted(store[..], was, off, off + count);
      count := count - 1;
    }

    method EventBytes() returns (total: nat)
      requires Shaped()
      ensures total == Total(config, Entries())
    {
      total := 0;
      for i := 0 to count
        invariant total == Total(config, store[off..off + i])
      {
        TotalAppend(config, store[off..off + i], [store[off + i]]);
        assert store[off..off + i + 1] == store[off..off + i] + [store[off + i]];
        assert [store[off + i]][1..] == [];
        match config.size(store[off + i])
        case Some(n) => total := total + n;
        case None =>
      }
    }

    // ---- Trimming ----

    /** Drops the oldest entries, after the marker if there is one, until both bounds hold or
        nothing more can go. */
    method TrimToBounds(hasMarker: bool) returns (dropped: bool)
      requires Shaped() && (hasMarker ==> count > 0)
      modifies this`off, this`count, store
      ensures Shaped()
      ensures !hasMarker ==> Entries() == LongestFit(config, old(Entries()), 0)
      ensures hasMarker ==>
                Entries() == [old(Entries())[0]]
                             + LongestFit(config, old(Entries())[1..], Weight(config, old(Entries())[0]))
      ensures dropped <==> count < old(count)
    {
      hide LongestFit, Total;
      dropped := false;
      ghost var before := Entries();
      ghost var x := if hasMarker then Weight(config, before[0]) else 0;
      ghost var content := if hasMarker then before[1..] else before;
      while true
        invariant Shaped() && (hasMarker ==> count > 0 && Entries() == [before[0]] + content)
        invariant !hasMarker ==> Entries() == content
        invariant LongestFit(config, content, x) ==
                  LongestFit(config, if hasMarker then before[1..] else before, x)
        invariant count <= |before| && (dropped <==> count < |before|)
        modifies this`off, this`count, store
        decreases count
      {
        TrimRound(config, content, x);
        var contentEvents := if hasMarker then count - 1 else count;
        var total := EventBytes();
        assert total == x + Total(config, content) by {
          if hasMarker { TotalAppend(config, [before[0]], content); TotalOne(config, before[0]); }
        }
        if contentEvents <= config.maxEvents && total <= config.maxBytes {
          return;
        }
        if hasMarker {
          if count == 1 {
            return;
          }
          assert [Entries()[0]] + Entries()[2..] == [before[0]] + content[1..];
          DropSecond();
        } else {
          assert content != [];
          off, count := off + 1, count - 1;
        }
        content := content[1..];
        dropped := true;
      }
    }

    /** The first overflow: the marker goes in front, and room is made for it. */
    method InsertMarker(later: int)
      requires Shaped() && !overflowed && Entries() == LongestFit(config, log.history, 0)
      modifies this`store, this`off, this`count, this`overflowed, this`marker
      ensures Shaped() && overflowed && fresh(store)
      ensures marker == Some(OverflowMarker(later)) && Entries() == Keep(config, marker, log.history)
    {
      hide LongestFit, OverflowMarker;
      overflowed := true;
      var m := OverflowMarker(later);
      marker := Some(m);
      Prepend(m);
      assert Entries()[1..] == LongestFit(config, log.history, 0);
      var _ := TrimToBounds(true);
      LongestFitTwice(config, log.history, 0, Weight(config, m));
    }

    method TrimAfterMarker(ghost older: seq<Event>, ghost e: Event)
      requires Shaped() && overflowed && marker.Some? && marker.value.sequence == 0
      requires lastSequence == log.lastSequence && log.history == older + [e] && !Fits(config, older, 0)
      requires Entries() == Keep(config, marker, older) + [e]
      modifies this`off, this`count, store
      ensures Settled()
    {
      StaysOverfull(config, older, e);
      hide LongestFit, Fits;
      assert Entries()[1..] == LongestFit(config, older, Weight(config, marker.value)) + [e];
      var _ := TrimToBounds(true);
      LongestFitStep(config, older, e, Weight(config, marker.value));
    }

    method TrimBeforeMarker(later: int)
      requires Shaped() && !overflowed && marker.None? && Entries() == log.history
      requires lastSequence == log.lastSequence
      modifies this`store, this`off, this`count, this`overflowed, this`marker, store
      ensures Settled() && (store == old(store) || fresh(store))
      ensures marker == (if Fits(config, log.history, 0) then None else Some(OverflowMarker(later)))
    {
      assert OverflowMarker(later).sequence == 0;
      hide OverflowMarker, LongestFit, Fits, Total;
      WholeOrTrimmed(config, log.history);
      var dropped := TrimToBounds(false);
      if dropped {
        InsertMarker(later);
      }
    }

    method Recount()
      requires Settled()
      modifies this`bytes
      ensures Valid()
    {
      hide Keep, Fits, Total;
      bytes := EventBytes();
    }

    /** Restores the bounds after an append, inserting the marker the first time something goes. */
    method Trim(ghost older: seq<Event>, ghost e: Event, later: int)
      requires marker.Some? ==> marker.value.sequence == 0
      requires Shaped() && log.history == older + [e] && lastSequence == log.lastSequence
      requires overflowed == marker.Some? == !Fits(config, older, 0)
      requires Entries() == Keep(config, marker, older) + [e]
      modifies this`store, this`off, this`count, this`bytes, this`overflowed, this`marker, store
      ensures Valid() && (store == old(store) || fresh(store))
      ensures marker == (if old(overflowed) then old(marker)
                         else if Fits(config, log.history, 0) then None else Some(OverflowMarker(later)))
    {
      assert !overflowed ==> Entries() == log.history;
      hide OverflowMarker, Total, Keep, Fits, Settled, Valid;
      if overflowed {
        TrimAfterMarker(older, e);
      } else {
        TrimBeforeMarker(later);
      }
      Recount();
    }

    // ---- Operations ----

    /** What stays as it was in every append: the reader's settings, and all of a paused view. */
    twostate predicate SameReader()
      reads this, rendered
    {
      paused == old(paused) && filter == old(filter) && rendered == old(rendered) && rendered[..] == old(rendered[..])
    }

    /** Everything shown was appended to the history, or is the overflow marker. */
    ghost predicate Honest()
      requires Shaped()
      reads this, store, rendered
    {
      forall e :: e in View() ==> e in log.history || marker == Some(e)
    }

    /** A live view is honest. */
    lemma LiveIsHonest()
      requires Valid() && !paused
      ensures Honest()
    {
      hide Keep, Fits;
      forall e | e in View() ensures e in log.history || marker == Some(e) {
        SelectedWasThere(filter, Entries(), e);
        KeptWasAppended(config, marker, log.history, e);
      }
    }

    /** An append keeps a paused view honest: the history only grows, and a marker stays. */
    twostate lemma StaysHonest()
      requires old(Valid()) && Valid() && SameReader()
      requires old(log.history) <= log.history && (old(marker).Some? ==> marker == old(marker))
      requires old(Honest())
      ensures Honest()
    {
      if paused {
        assert View() == old(View());
      } else {
        LiveIsHonest();
      }
    }

    /** Rejects an invalid or unencodable event with a marker entry in its place; the cursor moves
        only with an accepted one. An accepted event is appended clean. */
    method Add(e: Event, now: int, later: int) returns (err: Option<string>)
      requires Valid()
      modifies this, store
      ensures Valid() && (store == old(store) || fresh(store)) && SameReader()
      ensures paused ==> View() == old(View())
      ensures log == AddTo(config.size, old(log), e, now)
      ensures err.None? <==> Acceptable(config.size, e)
      ensures log.history == old(log.history) + [log.history[|old(log.history)|]]
      ensures err.None? ==> Cleaned(e, log.history[|old(log.history)|])
      ensures err.Some? ==>
                && log.history[|old(log.history)|].(payload := None)
                   == Event(0, now, "warn", "client", "client_malformed_event", None)
                && log.accepted == old(log.accepted) && log.lastSequence == old(log.lastSequence)
      ensures old(Honest()) ==> Honest()
      ensures marker == (if old(overflowed) then old(marker)
                         else if Fits(config, log.history, 0) then None else Some(OverflowMarker(later)))
    {
      assert Redact(e).sequence == e.sequence;
      AppendedReads(config.size, e, now);
      err := Insert(e, now, later);
      if old(Honest()) { StaysHonest(); }
    }

    method Insert(e: Event, now: int, later: int) returns (err: Option<string>)
      requires Valid()
      modifies this, store
      ensures Valid() && (store == old(store) || fresh(store)) && SameReader()
      ensures log == AddTo(config.size, old(log), e, now)
      ensures err.None? <==> Acceptable(config.size, e)
      ensures marker == (if old(overflowed) then old(marker)
                         else if Fits(config, log.history, 0) then None else Some(OverflowMarker(later)))
    {
      assert Redact(e).sequence == e.sequence;
      hide Keep, Total, Fits, Redact, Note, OverflowMarker;
      err := ValidationError(e);
      if err.Some? {
        AppendNote(KIND_MALFORMED, err.value, AddTo(config.size, log, e, now), now, later);
        return;
      }
      var redacted := Redact(e);
      var encoded := config.size(redacted);
      if encoded.None? {
        err := Some("encode event");
        AppendNote(KIND_MALFORMED, "event cannot be encoded", AddTo(config.size, log, e, now), now, later);
        return;
      }
      AppendEvent(redacted, encoded.value, AddTo(config.size, log, e, now), later);
    }

    method AppendEvent(redacted: Event, encoded: nat, ghost newLog: Log, later: int)
      requires Valid() && newLog.history == log.history + [redacted]
      requires newLog.lastSequence == Max(log.lastSequence, redacted.sequence)
      modifies this, store
      ensures Valid() && (store == old(store) || fresh(store)) && SameReader() && log == newLog
      ensures marker == (if old(overflowed) then old(marker)
                         else if Fits(config, log.history, 0) then None else Some(OverflowMarker(later)))
    {
      hide Keep, Total, Fits, OverflowMarker;
      ghost var older := log.history;
      log := newLog;
      Push(redacted);
      assert Entries() == Keep(config, marker, older) + [redacted];
      Advance(redacted.sequence, encoded);
      Trim(older, redacted, later);
    }

    /** The size and the cursor after an accepted event. */
    method Advance(sequence: nat, encoded: nat)
      modifies this`bytes, this`lastSequence
      ensures bytes == old(bytes) + encoded && lastSequence == Max(old(lastSequence), sequence)
    {
      bytes := bytes + encoded;
      if sequence > lastSequence {
        lastSequence := sequence;
      }
    }

    /** Appends a marker entry; the ghost argument is the log it leads to. */
    method AppendNote(kind: string, reason: string, ghost newLog: Log, now: int, later: int)
      requires Valid() && newLog.lastSequence == log.lastSequence
      requires newLog.history == log.history + [Note(kind, now, "reason", reason)]
      modifies this, store
      ensures Valid() && (store == old(store) || fresh(store)) && SameReader() && log == newLog
      ensures marker == (if old(overflowed) then old(marker)
                         else if Fits(config, log.history, 0) then None else Some(OverflowMarker(later)))
    {
      hide Keep, Total, Fits, Note, OverflowMarker;
      ghost var older := log.history;
      var note := Note(kind, now, "reason", reason);
      log := newLog;
      Push(note);
      Trim(older, note, later);
    }

    method MarkHistoryGap(reason: string, now: int, later: int)
      requires Valid()
      modifies this, store
      ensures Valid() && (store == old(store) || fresh(store)) && SameReader()
      ensures paused ==> View() == old(View())
      ensures log == MarkGap(old(log), reason, now)
      ensures log.history == old(log.history)
                             + [Event(0, now, "warn", "client", "event_history_gap",
                                      Some(map["reason" := Redaction.Text(reason)]))]
      ensures old(Honest()) ==> Honest()
      ensures marker == (if old(overflowed) then old(marker)
                         else if Fits(config, log.history, 0) then None else Some(OverflowMarker(later)))
    {
      GapReads(log, reason, now);
      AppendNote(KIND_HISTORY_GAP, reason, MarkGap(log, reason, now), now, later);
      if old(Honest()) { StaysHonest(); }
    }

    method SetFilter(f: Filter)
      requires Valid()
      modifies this`filter
      ensures Valid() && filter == f
      ensures paused ==> View() == old(View())
      ensures old(Honest()) ==> Honest()
    {
      filter := f;
      if !paused { LiveIsHonest(); }
    }

    /** Pausing captures the view once; resuming lets it go. */
    method SetPaused(on: bool)
      requires Valid()
      modifies this`paused, this`rendered
      ensures Valid() && paused == on
      ensures on ==> View() == old(View())
      ensures !on ==> View() == Select(filter, Entries())
      ensures old(Honest()) ==> Honest()
    {
      hide Keep, Fits, Select;
      if on && !paused {
        rendered := Visible();
      }
      if !on {
        rendered := new Event[0];
      }
      paused := on;
      if !on { LiveIsHonest(); }
    }

    /** A private copy of what a reader sees. */
    method Visible() returns (view: array<Event>)
      requires Valid()
      ensures fresh(view) && view[..] == View()
    {
      if paused {
        view := new Event[rendered.Length];
        forall i | 0 <= i < rendered.Length {
          view[i] := rendered[i];
        }
        return;
      }
      var result: seq<Event> := [];
      for i := 0 to count
        invariant result == Select(filter, Entries()[..i])
      {
        assert Entries()[..i + 1][..i] == Entries()[..i];
        if Matches(filter, store[off + i]) {
          result := result + [store[off + i]];
        }
      }
      assert Entries()[..count] == Entries();
      view := new Event[|result|](i requires 0 <= i < |result| => result[i]);
      assert view[..] == result;
    }

    /** The bounds of a buffer in any state it can be in. */
    lemma Bounded()
      requires Valid()
      ensures count <= config.maxEvents + (if overflowed then 1 else 0)
      ensures bytes <= config.maxBytes <==> marker.None? || Weight(config, marker.value) <= config.maxBytes
      ensures bytes > config.maxBytes ==> Entries() == [marker.value]
    {
      hide Keep, Fits;
      KeepBounds(config, marker, log.history);
      assert |Entries()| == count;
    }

    /** The Pi's events in the buffer are the newest of those ever appended, in order. */
    lemma HoldsNewest() returns (k: nat)
      requires Valid()
      ensures k <= |Numbered(log.history)| && Numbered(Entries()) == Numbered(log.history)[k..]
    {
      hide Keep, Fits;
      k := KeepsNewest(config, marker, log.history);
    }

    /** Once anything was appended, an unfiltered live view has a last entry: the newest one if it
        fits next to the overflow marker, otherwise the marker. */
    lemma NewestIsVisible()
      requires Valid() && !paused && Unfiltered(filter) && log.history != []
      ensures View() != []
      ensures var newest, shown := log.history[|log.history| - 1], View()[|View()| - 1];
              if marker.None? || Weight(config, marker.value) + Weight(config, newest) <= config.maxBytes
              then shown == newest else shown == marker.value && |View()| == 1
    {
      hide Keep;
      var h := log.history;
      assert h == h[..|h| - 1] + [h[|h| - 1]];
      NewestIsKept(config, marker, h[..|h| - 1], h[|h| - 1]);
      SelectAll(filter, Entries());
    }

    method LastSequence() returns (cursor: nat)
      requires Valid()
      ensures cursor == log.lastSequence
    {
      cursor := lastSequence;
    }
  }

  /** A buffer over its byte limit, whatever the encoding: when the limit is below the marker's
      size, one event that does not fit is enough. */
  method OverLimit(maxBytes: int, size: Encoder, e: Event, now: int, later: int) returns (b: Buffer)
    requires 0 < maxBytes && Acceptable(size, e) && size(Redact(e)).value > maxBytes
    requires size(OverflowMarker(later)).Some? && size(OverflowMarker(later)).value > maxBytes
    ensures fresh(b) && b.Valid() && b.config.maxBytes == maxBytes < b.bytes
    ensures b.Entries() == [OverflowMarker(later)]
  {
    b := new Buffer(1, maxBytes, size);
    var err := b.Add(e, now, later);
    assert b.log.history == [Redact(e)];
    TotalOne(b.config, Redact(e));
    b.Bounded();
  }
}
