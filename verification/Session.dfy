// One control-plane connection on the Pi (bottle-agent/internal/controlplane/server.go:180-281):
// pairing, hello, then requests until the input or the session ends.
module Session {
  const PROTOCOL := "bottle-control/1"

  datatype Op = Status | Provision | Update | Survey(start: bool) | Subscribe | Tunnel | Unknown(name: string)

  /** A decoded frame. */
  datatype Frame =
    | Hello(version: string)
    | Request(id: string, op: Op, confirm: bool, lastSequence: nat, payload: string)
    | OtherFrame

  /** What the handler makes of a call; a history gap is an error of its own kind. */
  datatype Answer = Done(payload: string) | Error(reason: string) | HistoryGap

  /** A handler call, with the request it was made for. */
  datatype Call = Call(origin: nat, op: Op, confirm: bool, lastSequence: nat, payload: string)

  /** A frame sent back, with the request it answers; events are not among them. */
  datatype Reply =
    | Response(origin: nat, id: string, ok: bool, text: string)
    | ResyncRequired(origin: nat, id: string)

  /** What the connection has done so far: frames sent outside any request, replies, handler
      calls, requests whose events are being forwarded, and whether it still reads. */
  datatype Conn = Conn(greetings: seq<string>, replies: seq<Reply>, calls: seq<Call>, streams: set<nat>, open: bool)

  /** The environment of a connection: the pairing check, whether the hello_ack can be
      written, whether a tunnel is configured, and the handler's answers. */
  datatype Setting = Setting(paired: bool, acked: bool, tunnel: bool, answers: seq<Answer>)

  function AnswerTo(c: Setting, calls: seq<Call>): Answer
  {
    if |calls| < |c.answers| then c.answers[|calls|] else Done("")
  }

  // ---- One request ----

  predicate NeedsConfirmation(op: Op) { op.Provision? || op.Update? || op.Survey? }

  function ConfirmError(op: Op): string
  {
    match op
    case Provision => "explicit confirmation is required for provisioning"
    case Update => "explicit confirmation is required for updates"
    case _ => "explicit confirmation is required for survey control"
  }

  function Respond(k: Conn, i: nat, r: Frame, a: Answer): Conn
    requires r.Request?
  {
    match a
    case Done(payload) => k.(replies := k.replies + [Response(i, r.id, true, payload)])
    case Error(reason) => k.(replies := k.replies + [Response(i, r.id, false, reason)])
    case HistoryGap =>
      if r.op.Subscribe? then k.(replies := k.replies + [ResyncRequired(i, r.id)])
      else k.(replies := k.replies + [Response(i, r.id, false, "event history gap")])
  }

  function CallFor(i: nat, r: Frame): Call
    requires r.Request?
  {
    Call(i, r.op, r.confirm, r.lastSequence, r.payload)
  }

  function Dispatch(c: Setting, k: Conn, i: nat, r: Frame): Conn
    requires r.Request? && !r.op.Tunnel?
  {
    if r.op.Unknown? then Respond(k, i, r, Error("unsupported typed operation \"" + r.op.name + "\""))
    else if NeedsConfirmation(r.op) && !r.confirm then Respond(k, i, r, Error(ConfirmError(r.op)))
    else
      var a, called := AnswerTo(c, k.calls), k.(calls := k.calls + [CallFor(i, r)]);
      if r.op.Subscribe? && a.Done? then called.(streams := k.streams + {i})
      else Respond(called, i, r, a)
  }

  function ServeTunnel(c: Setting, k: Conn, i: nat, r: Frame): Conn
    requires r.Request?
  {
    Respond(k, i, r, if c.tunnel then Done("") else Error("Kismet tunnel is not configured")).(open := false)
  }

  function Read(c: Setting, k: Conn, i: nat, f: Frame): Conn
  {
    if !k.open || !f.Request? then k
    else if f.op.Tunnel? then ServeTunnel(c, k, i, f)
    else Dispatch(c, k, i, f)
  }

  /** Before the requests: pairing and hello. */
  function Greet(c: Setting, frames: seq<Frame>): Conn
  {
    if !c.paired then Conn(["not_paired"], [], [], {}, false)
    else if frames == [] || frames[0] != Hello(PROTOCOL) then Conn(["protocol_version"], [], [], {}, false)
    else Conn(["hello_ack"], [], [], {}, c.acked)
  }

  /** The connection after its first n frames. */
  function Handled(c: Setting, frames: seq<Frame>, n: nat): Conn
    requires n <= |frames|
  {
    if n <= 1 then Greet(c, frames) else Read(c, Handled(c, frames, n - 1), n - 1, frames[n - 1])
  }

  // ---- What holds of every input ----

  /** The request in frame i was read: the connection was open when it arrived. */
  predicate WasRead(c: Setting, frames: seq<Frame>, i: nat)
  {
    1 <= i < |frames| && frames[i].Request? && Handled(c, frames, i).open
  }

  predicate Replied(k: Conn, i: nat)
  {
    exists j :: 0 <= j < |k.replies| && k.replies[j].origin == i
  }

  /** Replies come in request order and carry their request's ID. */
  predicate Ordered(frames: seq<Frame>, n: nat, replies: seq<Reply>)
    requires n <= |frames|
  {
    && (forall j :: 0 <= j < |replies| ==>
          1 <= replies[j].origin < n && frames[replies[j].origin].Request?
          && replies[j].id == frames[replies[j].origin].id)
    && (forall j, l :: 0 <= j < l < |replies| ==> replies[j].origin < replies[l].origin)
  }

  /** Every request that was read is replied to, except the subscribes whose events are being
      forwarded; nothing else is. */
  predicate Answered(c: Setting, frames: seq<Frame>, n: nat, k: Conn)
    requires n <= |frames|
  {
    && (forall i :: 1 <= i < n ==> (Replied(k, i) <==> WasRead(c, frames, i) && i !in k.streams))
    && (forall i :: i in k.streams ==> 1 <= i < n && WasRead(c, frames, i) && frames[i].op.Subscribe?)
  }

  /** Calls come in request order, each for a request that was read and, where the operation
      needs it, confirmed. */
  predicate CallsInv(c: Setting, frames: seq<Frame>, n: nat, k: Conn)
    requires n <= |frames|
  {
    && (forall j :: 0 <= j < |k.calls| ==>
          1 <= k.calls[j].origin < n && WasRead(c, frames, k.calls[j].origin)
          && k.calls[j] == CallFor(k.calls[j].origin, frames[k.calls[j].origin])
          && (k.calls[j].op.Provision? || k.calls[j].op.Update? || k.calls[j].op.Survey? ==> k.calls[j].confirm))
    && (forall j, l :: 0 <= j < l < |k.calls| ==> k.calls[j].origin < k.calls[l].origin)
  }

  /** A connection reads requests only after pairing and hello. */
  predicate Welcome(c: Setting, frames: seq<Frame>)
  {
    c.paired && frames != [] && frames[0] == Hello(PROTOCOL)
  }

  predicate Inv(c: Setting, frames: seq<Frame>, n: nat, k: Conn)
    requires n <= |frames|
  {
    && Ordered(frames, n, k.replies) && Answered(c, frames, n, k) && CallsInv(c, frames, n, k)
    && (k.open || k.calls != [] || k.replies != [] || k.streams != {} ==> Welcome(c, frames))
  }

  lemma Appended(k: Conn, k': Conn, r: Reply)
    requires k'.replies == k.replies + [r]
    ensures forall i: nat :: Replied(k', i) <==> Replied(k, i) || i == r.origin
  {
    forall i: nat ensures Replied(k', i) <==> Replied(k, i) || i == r.origin {
      if Replied(k, i) {
        var j :| 0 <= j < |k.replies| && k.replies[j].origin == i;
        assert k'.replies[j].origin == i;
      }
      assert k'.replies[|k.replies|].origin == r.origin;
    }
  }

  /** What one frame does to the replies: one for it, or its stream, or nothing if not read. */
  lemma ReadOutcome(c: Setting, k: Conn, i: nat, f: Frame)
    requires i !in k.streams
    ensures var k' := Read(c, k, i, f);
            if !(k.open && f.Request?) then k' == k
            else if i in k'.streams then
              k'.replies == k.replies && k'.streams == k.streams + {i} && f.op.Subscribe?
            else
              && k'.streams == k.streams && |k'.replies| == |k.replies| + 1 && k.replies <= k'.replies
              && k'.replies[|k.replies|].origin == i && k'.replies[|k.replies|].id == f.id
  {
  }

  /** Whether a request is let through to the handler. */
  predicate LetThrough(f: Frame)
    requires f.Request?
  {
    !f.op.Tunnel? && !f.op.Unknown? && (f.op.Provision? || f.op.Update? || f.op.Survey? ==> f.confirm)
  }

  /** Why a request is not let through. */
  function Objection(c: Setting, f: Frame): string
    requires f.Request?
  {
    match f.op
    case Tunnel => "Kismet tunnel is not configured"
    case Unknown(name) => "unsupported typed operation \"" + name + "\""
    case Provision => "explicit confirmation is required for provisioning"
    case Update => "explicit confirmation is required for updates"
    case _ => "explicit confirmation is required for survey control"
  }

  /** What the reply says, and that nobody is told of a success that did not happen: it is OK
      exactly when the handler was called and answered so, or a configured tunnel was asked for; a
      resync is asked for exactly when a subscribe met a history gap; the handler is called once
      for a request that is let through and not at all for another. */
  lemma RepliesAreTrue(c: Setting, k: Conn, i: nat, f: Frame)
    requires k.open && f.Request? && i !in k.streams
    ensures var k', a := Read(c, k, i, f), if |k.calls| < |c.answers| then c.answers[|k.calls|] else Done("");
            && k'.greetings == k.greetings
            && k'.calls ==
               k.calls + (if LetThrough(f) then [Call(i, f.op, f.confirm, f.lastSequence, f.payload)] else [])
            && (i in k'.streams <==> LetThrough(f) && f.op.Subscribe? && a.Done?)
            && (i !in k'.streams ==>
                  var r := k'.replies[|k'.replies| - 1];
                  && (r.ResyncRequired? <==> f.op.Subscribe? && a.HistoryGap?)
                  && (r.Response? && r.ok <==> if f.op.Tunnel? then c.tunnel else LetThrough(f) && a.Done?)
                  && (r.Response? ==>
                        r.text == if LetThrough(f)
                                  then match a
                                    case Done(p) => p
                                    case Error(e) => e
                                    case HistoryGap => "event history gap"
                                  else if f.op.Tunnel? && c.tunnel then "" else Objection(c, f)))
  {
  }

  lemma NotYetReplied(frames: seq<Frame>, i: nat, k: Conn)
    requires i <= |frames| && Ordered(frames, i, k.replies)
    ensures !Replied(k, i)
  {
  }

  lemma ReadOrdered(c: Setting, frames: seq<Frame>, i: nat, k: Conn)
    requires 1 <= i < |frames| && Ordered(frames, i, k.replies) && i !in k.streams
    ensures Ordered(frames, i + 1, Read(c, k, i, frames[i]).replies)
  {
    ReadOutcome(c, k, i, frames[i]);
    hide Read;
  }

  lemma ReadAnswered(c: Setting, frames: seq<Frame>, i: nat, k: Conn)
    requires 1 <= i < |frames| && Answered(c, frames, i, k) && !Replied(k, i)
    requires WasRead(c, frames, i) <==> k.open && frames[i].Request?
    ensures Answered(c, frames, i + 1, Read(c, k, i, frames[i]))
  {
    ReadOutcome(c, k, i, frames[i]);
    hide Read, WasRead, Replied;
    var k' := Read(c, k, i, frames[i]);
    if |k'.replies| > |k.replies| {
      assert k'.replies == k.replies + [k'.replies[|k.replies|]];
      Appended(k, k', k'.replies[|k.replies|]);
    } else {
      SameReplies(k, k');
    }
  }

  lemma SameReplies(k: Conn, k': Conn)
    requires k'.replies == k.replies
    ensures forall i: nat :: Replied(k', i) <==> Replied(k, i)
  {
  }

  lemma ReadCalls(c: Setting, frames: seq<Frame>, i: nat)
    requires 1 <= i < |frames| && CallsInv(c, frames, i, Handled(c, frames, i))
    ensures CallsInv(c, frames, i + 1, Handled(c, frames, i + 1))
  {
    var k, k' := Handled(c, frames, i), Handled(c, frames, i + 1);
    assert k' == Read(c, k, i, frames[i]);
    assert k'.calls == k.calls || k'.calls == k.calls + [CallFor(i, frames[i])];
  }

  /** For every input: nothing is called, answered or forwarded before pairing and hello; every
      request read gets exactly one reply, with its ID and in order, except an accepted subscribe;
      provision, update and survey reach the handler only when confirmed. */
  lemma {:induction false} SessionHolds(c: Setting, frames: seq<Frame>, n: nat)
    requires n <= |frames|
    ensures Inv(c, frames, n, Handled(c, frames, n))
    decreases n
  {
    if n > 1 {
      SessionHolds(c, frames, n - 1);
      var k := Handled(c, frames, n - 1);
      NotYetReplied(frames, n - 1, k);
      ReadOrdered(c, frames, n - 1, k);
      ReadAnswered(c, frames, n - 1, k);
      ReadCalls(c, frames, n - 1);
    } else {
      assert forall i: nat :: !Replied(Greet(c, frames), i);
    }
  }

  /** For every input: exactly one greeting is sent, which tells an unpaired client that it is not
      paired, a paired one whose first frame is the hello of this protocol that it is welcome, and
      any other what is wrong. When the welcome cannot be written nothing is read, called,
      answered or forwarded. */
  lemma {:induction false} GreetedOnce(c: Setting, frames: seq<Frame>, n: nat)
    requires n <= |frames|
    ensures var k := Handled(c, frames, n);
            && |k.greetings| == 1
            && (k.greetings[0] == "not_paired" <==> !c.paired)
            && (k.greetings[0] == "hello_ack" <==>
                  c.paired && |frames| > 0 && frames[0] == Hello("bottle-control/1"))
            && (k.greetings[0] == "protocol_version" <==>
                  c.paired && !(|frames| > 0 && frames[0] == Hello("bottle-control/1")))
            && (!c.acked ==> !k.open && k.replies == [] && k.calls == [] && k.streams == {})
    decreases n
  {
    if n > 1 {
      GreetedOnce(c, frames, n - 1);
      GreetingsStay(c, Handled(c, frames, n - 1), n - 1, frames[n - 1]);
    } else {
      assert |"not_paired"| == 10 && |"hello_ack"| == 9 && |"protocol_version"| == 16;
    }
  }

  lemma GreetingsStay(c: Setting, k: Conn, i: nat, f: Frame)
    ensures Read(c, k, i, f).greetings == k.greetings
    ensures !k.open ==> Read(c, k, i, f) == k
  {
  }

  /** Reading goes on until a tunnel request or the end of the input; nothing else ends it. */
  lemma {:induction false} OnlyTunnelEnds(c: Setting, frames: seq<Frame>, n: nat)
    requires 1 <= n <= |frames| && Welcome(c, frames) && c.acked
    ensures Handled(c, frames, n).open <==>
              forall i :: 1 <= i < n ==> !(frames[i].Request? && frames[i].op.Tunnel?)
    decreases n
  {
    if n > 1 {
      OnlyTunnelEnds(c, frames, n - 1);
    }
  }

  // ---- The connection as the source runs it ----

  class Server {
    const setting: Setting
    var conn: Conn

    constructor (setting: Setting)
      ensures this.setting == setting
    {
      this.setting, conn := setting, Conn([], [], [], {}, true);
    }

    method Send(greeting: string)
      modifies this
      ensures conn == old(conn).(greetings := old(conn).greetings + [greeting])
    {
      conn := conn.(greetings := conn.greetings + [greeting]);
    }

    method Reply(i: nat, r: Frame, a: Answer)
      requires r.Request?
      modifies this
      ensures conn == Respond(old(conn), i, r, a)
    {
      match a
      case Done(payload) => conn := conn.(replies := conn.replies + [Response(i, r.id, true, payload)]);
      case Error(reason) => conn := conn.(replies := conn.replies + [Response(i, r.id, false, reason)]);
      case HistoryGap =>
        if r.op.Subscribe? {
          conn := conn.(replies := conn.replies + [ResyncRequired(i, r.id)]);
        } else {
          conn := conn.(replies := conn.replies + [Response(i, r.id, false, "event history gap")]);
        }
    }

    method CallHandler(i: nat, r: Frame) returns (a: Answer)
      requires r.Request?
      modifies this
      ensures a == AnswerTo(setting, old(conn).calls)
      ensures conn == old(conn).(calls := old(conn).calls + [CallFor(i, r)])
    {
      a := AnswerTo(setting, conn.calls);
      conn := conn.(calls := conn.calls + [CallFor(i, r)]);
    }

    method DispatchRequest(i: nat, r: Frame)
      requires r.Request? && !r.op.Tunnel?
      modifies this
      ensures conn == Dispatch(setting, old(conn), i, r)
    {
      if r.op.Unknown? {
        Reply(i, r, Error("unsupported typed operation \"" + r.op.name + "\""));
        return;
      }
      if NeedsConfirmation(r.op) && !r.confirm {
        Reply(i, r, Error(ConfirmError(r.op)));
        return;
      }
      var a := CallHandler(i, r);
      if r.op.Subscribe? && a.Done? {
        conn := conn.(streams := conn.streams + {i});
        return;
      }
      Reply(i, r, a);
    }

    method Handle(frames: seq<Frame>)
      requires conn == Conn([], [], [], {}, true)
      modifies this
      ensures conn == Handled(setting, frames, |frames|)
    {
      if !setting.paired {
        Send("not_paired");
        conn := conn.(open := false);
        StaysClosed(setting, frames, |frames|);
        return;
      }
      if |frames| == 0 || frames[0] != Hello(PROTOCOL) {
        Send("protocol_version");
        conn := conn.(open := false);
        StaysClosed(setting, frames, |frames|);
        return;
      }
      Send("hello_ack");
      if !setting.acked {
        conn := conn.(open := false);
        StaysClosed(setting, frames, |frames|);
        return;
      }
      for i := 1 to |frames|
        invariant conn == Handled(setting, frames, i) && conn.open
      {
        var req := frames[i];
        if !req.Request? {
          continue;
        }
        if req.op.Tunnel? {
          Reply(i, req, if setting.tunnel then Done("") else Error("Kismet tunnel is not configured"));
          conn := conn.(open := false);
          ClosedStays(setting, frames, i + 1, |frames|);
          return;
        }
        DispatchRequest(i, req);
      }
    }
  }

  lemma {:induction false} ClosedStays(c: Setting, frames: seq<Frame>, i: nat, n: nat)
    requires 1 <= i <= n <= |frames| && !Handled(c, frames, i).open
    ensures Handled(c, frames, n) == Handled(c, frames, i)
    decreases n
  {
    if i < n {
      ClosedStays(c, frames, i, n - 1);
    }
  }

  lemma StaysClosed(c: Setting, frames: seq<Frame>, n: nat)
    requires n <= |frames| && !Greet(c, frames).open
    ensures Handled(c, frames, n) == Greet(c, frames)
  {
    if n > 1 {
      ClosedStays(c, frames, 1, n);
    }
  }
}
