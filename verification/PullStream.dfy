// The pull stream over the two channels of StreamEvents
// (bottle-tui/internal/controlplane/eventstream.go:12-40): what one receive can yield, and what
// the receives after it can.
module PullStream {
  import opened Prelude
  import opened Events
  import opened Replication

  /** The ends of the two channels that a receiver holds. */
  datatype Ends = Ends(events: seq<Event>, eventsClosed: bool, errors: Option<Fault>, errorsClosed: bool)

  /** The branch that a select takes. */
  datatype Side = Events | Errors

  datatype Received = Got(event: Event) | Failed(fault: Fault) | EndOfStream | Blocked

  /** One receive, taking the given branch; that branch may not be ready. */
  function Recv(c: Ends, side: Side): (Received, Ends)
  {
    match side
    case Events =>
      if c.events != [] then (Got(c.events[0]), c.(events := c.events[1..]))
      else (if c.eventsClosed then EndOfStream else Blocked, c)
    case Errors =>
      if c.errors.Some? then (Failed(c.errors.value), c.(errors := None))
      else (if c.errorsClosed then EndOfStream else Blocked, c)
  }

  function RecvAll(c: Ends, sides: seq<Side>): (seq<Received>, Ends)
  {
    if sides == [] then ([], c)
    else
      var (earlier, c1) := RecvAll(c, sides[..|sides| - 1]);
      var (r, c2) := Recv(c1, sides[|sides| - 1]);
      (earlier + [r], c2)
  }

  /** What the channels hold. */
  predicate Drained(c: Ends) { c.events == [] && c.errors.None? }

  /** A receive may yield the end of the stream. */
  predicate CanEnd(c: Ends) { exists side :: Recv(c, side).0.EndOfStream? }

  /** It may exactly when one channel is closed and holds nothing, whatever the other holds. */
  lemma EndWhen(c: Ends)
    ensures CanEnd(c) <==> (c.eventsClosed && c.events == []) || (c.errorsClosed && c.errors.None?)
  {
    assert Recv(c, Events).0.EndOfStream? <==> c.eventsClosed && c.events == [];
    assert Recv(c, Errors).0.EndOfStream? <==> c.errorsClosed && c.errors.None?;
  }

  /** After the end of the stream was received, some later receives yield an event or an error if
      and only if the channels still hold one: the end is not final before both are drained. */
  lemma MoreAfterEnd(c: Ends, side: Side)
    requires Recv(c, side).0.EndOfStream?
    ensures (exists sides :: SomethingElse(RecvAll(Recv(c, side).1, sides).0)) <==> !Drained(c)
  {
    assert Recv(c, side).1 == c;
    if Drained(c) {
      forall sides ensures !SomethingElse(RecvAll(c, sides).0) { NothingLeft(c, sides); }
    } else {
      var sides := [if c.events != [] then Events else Errors];
      assert RecvAll(c, sides[..0]) == ([], c);
      assert RecvAll(c, sides).0 == [Recv(c, sides[0]).0];
      assert RecvAll(c, sides).0[0] == Recv(c, sides[0]).0;
      assert SomethingElse(RecvAll(c, sides).0);
    }
  }

  /** So the end can be received before something else exactly when one channel is closed and
      drained and the other still holds something. */
  lemma EndBeforeMore(c: Ends)
    ensures (exists side, sides ::
               Recv(c, side).0.EndOfStream? && SomethingElse(RecvAll(Recv(c, side).1, sides).0))
            <==> (c.errorsClosed && c.errors.None? && c.events != [])
                 || (c.eventsClosed && c.events == [] && c.errors.Some?)
  {
    EndWhen(c);
    if CanEnd(c) {
      var side :| Recv(c, side).0.EndOfStream?;
      MoreAfterEnd(c, side);
    }
  }

  predicate SomethingElse(rs: seq<Received>)
  {
    exists i :: 0 <= i < |rs| && (rs[i].Got? || rs[i].Failed?)
  }

  lemma {:induction false} NothingLeft(c: Ends, sides: seq<Side>)
    requires Drained(c)
    ensures !SomethingElse(RecvAll(c, sides).0) && RecvAll(c, sides).1 == c
    decreases |sides|
  {
    if sides != [] {
      NothingLeft(c, sides[..|sides| - 1]);
    }
  }

  /** A stream whose connection ended without an error and left an event in the client's channel:
      the end of the stream is received from one channel, then the event from the other. */
  lemma EventAfterEnd(e: Event)
    ensures var c := Ends([e], true, None, true);
            RecvAll(c, [Errors, Events]).0 == [EndOfStream, Got(e)]
  {
    var c := Ends([e], true, None, true);
    assert [Errors, Events][..1] == [Errors] && [Errors][..0] == [];
    assert RecvAll(c, [Errors]).0 == [] + [EndOfStream];
  }

  // ---- The receives of the step system ----

  /** A stream's channels as its receiver sees them; the producer closes both when it finishes. */
  function EndsOf(s: Stream): Ends { Ends(s.out, s.done, s.errs, s.done) }

  /** The steps of the loop are exactly what a receive can yield, when the producer's two channels
      are as it leaves them: an event, an error, or the end of the stream. */
  lemma StepsAreReceives(size: Encoder, w: World, now: int)
    requires w.stream.Some?
    ensures var s := w.stream.value;
            && (Recv(EndsOf(s), Events).0.Got? <==> s.out != [])
            && (s.out != [] ==>
                  && Recv(EndsOf(s), Events).0.event == s.out[0]
                  && Next(size, w, Deliver(now)).log == AddTo(size, w.log, s.out[0], now)
                  && EndsOf(Next(size, w, Deliver(now)).stream.value) == Recv(EndsOf(s), Events).1)
            && (Recv(EndsOf(s), Errors).0 == Failed(Resync) ==>
                  && Next(size, w, Fail(now)).log == MarkGap(w.log, GAP_REASON, now)
                  && EndsOf(Next(size, w, Fail(now)).stream.value) == Recv(EndsOf(s), Errors).1)
            && (Recv(EndsOf(s), Errors).0 == Failed(Broken) ==> Next(size, w, Fail(now)).stream.None?)
            && (CanEnd(EndsOf(s)) <==> Next(size, w, End) != w)
  {
    EndWhen(EndsOf(w.stream.value));
  }
}
