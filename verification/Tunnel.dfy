// The laptop tunnel's goroutines and their shutdown (bottle-tui/internal/tunnel/tunnel.go:57-165)
// as a step system: the accept loop, a relay for each connection with its two copying goroutines,
// and Close. An emit is two steps, the status under the lock and then the send.
module Tunnel {
  import opened Prelude

  datatype Status = Starting | Connected | Reconnecting | Closed

  datatype Loop = Accepting | Adding | Spawning | LoopSending | LoopLeaving | LoopGone

  datatype Phase = Opening | Sending(ok: bool) | Waiting | Finished | RelayGone

  /** A relay, its copying goroutines still running, and its result channel of capacity two. */
  datatype Relay = Relay(phase: Phase, copying: nat, results: nat, taken: nat)

  datatype Closing = NotCalled | Cancelled | Unlistened | Waited | StatusSet | Sent | ChannelClosed

  const EVENTS_CAPACITY := 32
  const RESULT_CAPACITY := 2

  /** `faults` counts what would panic or break the wait group's rules: a send on the closed event
      channel, a negative counter, or an Add from zero. */
  datatype Tunnel = Tunnel(
    loop: Loop, relays: seq<Relay>, closing: Closing, listening: bool, cancelled: bool,
    wg: int, status: Status, queued: nat, closed: bool, faults: nat)

  /** What Start leaves: one event sent, one goroutine counted. */
  const STARTED := Tunnel(Accepting, [], NotCalled, true, false, 1, Starting, 1, false, 0)

  datatype Action =
    | Accept | AcceptFails | Add | Spawn | LoopSend | LoopDone
    | OpenStream(id: nat, ok: bool) | RelaySend(id: nat) | CopyEnds(id: nat) | TakeResult(id: nat, lost: bool)
    | SeeCancel(id: nat) | RelayDone(id: nat)
    | CancelParent | CloseCancel | CloseListener | CloseWait | CloseStatus | CloseSend | CloseChannel
    | ReceiveEvent

  function SetStatus(t: Tunnel, s: Status): Tunnel { t.(status := s) }

  /** The send of an emit gives up when the channel is full. */
  function Send(t: Tunnel): Tunnel
  {
    if t.closed then t.(faults := t.faults + 1)
    else if t.queued < EVENTS_CAPACITY then t.(queued := t.queued + 1) else t
  }

  function Count(t: Tunnel): Tunnel
  {
    t.(wg := t.wg + 1, faults := if t.wg == 0 then t.faults + 1 else t.faults)
  }

  function Uncount(t: Tunnel): Tunnel
  {
    t.(wg := t.wg - 1, faults := if t.wg <= 0 then t.faults + 1 else t.faults)
  }

  function With(t: Tunnel, id: nat, r: Relay): Tunnel
    requires id < |t.relays|
  {
    t.(relays := t.relays[id := r])
  }

  function LoopStep(t: Tunnel, a: Action): Tunnel
  {
    match a
    case Accept => if t.loop.Accepting? && t.listening then t.(loop := Adding) else t
    case AcceptFails =>
      if t.loop.Accepting? then
        if t.cancelled then t.(loop := LoopLeaving) else SetStatus(t, Reconnecting).(loop := LoopSending)
      else t
    case Add => if t.loop.Adding? then Count(t).(loop := Spawning) else t
    case Spawn =>
      if t.loop.Spawning? then t.(relays := t.relays + [Relay(Opening, 0, 0, 0)], loop := Accepting) else t
    case LoopSend => if t.loop.LoopSending? then Send(t).(loop := LoopLeaving) else t
    case LoopDone => if t.loop.LoopLeaving? then Uncount(t).(loop := LoopGone) else t
    case _ => t
  }

  function RelayStep(t: Tunnel, a: Action, id: nat): Tunnel
    requires id < |t.relays|
  {
    var r := t.relays[id];
    match a
    case OpenStream(_, ok) =>
      if r.phase.Opening? then
        With(SetStatus(t, if ok then Connected else Reconnecting), id, r.(phase := Sending(ok)))
      else t
    case RelaySend(_) =>
      if r.phase.Sending? then
        With(Send(t), id, if r.phase.ok then r.(phase := Waiting, copying := 2) else r.(phase := Finished))
      else t
    case CopyEnds(_) =>
      // A send on the result channel blocks while the channel is full.
      if r.copying > 0 && r.results < RESULT_CAPACITY then
        With(t, id, r.(copying := r.copying - 1, results := r.results + 1)) else t
    case TakeResult(_, lost) =>
      if r.phase.Waiting? && r.results > 0 then
        var r' := r.(results := r.results - 1, taken := r.taken + 1);
        if lost then With(SetStatus(t, Reconnecting), id, r'.(phase := Sending(false)))
        else With(t, id, r'.(phase := Finished))
      else t
    case SeeCancel(_) => if r.phase.Waiting? && t.cancelled then With(t, id, r.(phase := Finished)) else t
    case RelayDone(_) => if r.phase.Finished? then With(Uncount(t), id, r.(phase := RelayGone)) else t
    case _ => t
  }

  function CloseStep(t: Tunnel, a: Action): Tunnel
  {
    match a
    case CancelParent => t.(cancelled := true)
    case CloseCancel => if t.closing.NotCalled? then t.(closing := Cancelled, cancelled := true) else t
    case CloseListener => if t.closing.Cancelled? then t.(closing := Unlistened, listening := false) else t
    case CloseWait => if t.closing.Unlistened? && t.wg == 0 then t.(closing := Waited) else t
    case CloseStatus => if t.closing.Waited? then SetStatus(t, Closed).(closing := StatusSet) else t
    case CloseSend => if t.closing.StatusSet? then Send(t).(closing := Sent) else t
    case CloseChannel => if t.closing.Sent? then t.(closing := ChannelClosed, closed := true) else t
    case ReceiveEvent => if t.queued > 0 then t.(queued := t.queued - 1) else t
    case _ => t
  }

  function Subject(a: Action): Option<nat>
  {
    match a
    case OpenStream(id, _) => Some(id)
    case RelaySend(id) => Some(id)
    case CopyEnds(id) => Some(id)
    case TakeResult(id, _) => Some(id)
    case SeeCancel(id) => Some(id)
    case RelayDone(id) => Some(id)
    case _ => None
  }

  function Next(t: Tunnel, a: Action): Tunnel
  {
    if Subject(a).Some? then (if Subject(a).value < |t.relays| then RelayStep(t, a, Subject(a).value) else t)
    else if a.Accept? || a.AcceptFails? || a.Add? || a.Spawn? || a.LoopSend? || a.LoopDone? then LoopStep(t, a)
    else CloseStep(t, a)
  }

  function Exec(t: Tunnel, actions: seq<Action>): Tunnel
    decreases |actions|
  {
    if actions == [] then t else Exec(Next(t, actions[0]), actions[1..])
  }

  // ---- Invariant ----

  function One(r: Relay): nat { if r.phase.RelayGone? then 0 else 1 }

  function Live(relays: seq<Relay>): nat
  {
    if relays == [] then 0 else Live(relays[..|relays| - 1]) + One(relays[|relays| - 1])
  }

  lemma {:induction false} LiveUpdate(relays: seq<Relay>, id: nat, r: Relay)
    requires id < |relays|
    ensures Live(relays[id := r]) == Live(relays) - One(relays[id]) + One(r)
    decreases |relays|
  {
    var init := relays[..|relays| - 1];
    if id == |relays| - 1 {
      assert relays[id := r][..|relays| - 1] == init;
    } else {
      assert relays[id := r][..|relays| - 1] == init[id := r];
      LiveUpdate(init, id, r);
    }
  }

  lemma {:induction false} NoneLive(relays: seq<Relay>, id: nat)
    requires id < |relays| && Live(relays) == 0
    ensures relays[id].phase.RelayGone?
    decreases |relays|
  {
    if id < |relays| - 1 {
      NoneLive(relays[..|relays| - 1], id);
    }
  }

  /** Past Close's wait. */
  predicate Quiet(c: Closing) { c.Waited? || c.StatusSet? || c.Sent? || c.ChannelClosed? }

  predicate NoCopies(r: Relay) { r.copying == 0 && r.results == 0 && r.taken == 0 }

  /** A relay's copies: none yet, or two, each still running, with its result in the channel, or
      with its result taken. */
  predicate Balanced(r: Relay)
  {
    && (NoCopies(r) || r.copying + r.results + r.taken == 2)
    && (r.phase.Opening? || (r.phase.Sending? && r.phase.ok) ==> NoCopies(r))
  }

  predicate Inv(t: Tunnel)
  {
    && t.faults == 0
    && t.wg == (if t.loop.LoopGone? then 0 else 1) + (if t.loop.Spawning? then 1 else 0) + Live(t.relays)
    && (Quiet(t.closing) ==> t.wg == 0)
    && (t.closed <==> t.closing.ChannelClosed?)
    && (Quiet(t.closing) && !t.closing.Waited? ==> t.status == Closed)
    && (!t.closing.NotCalled? ==> t.cancelled)
    && (t.listening <==> t.closing.NotCalled? || t.closing.Cancelled?)
    && t.queued <= EVENTS_CAPACITY
    && (forall i :: 0 <= i < |t.relays| ==> Balanced(t.relays[i]))
  }

  lemma LoopKeeps(t: Tunnel, a: Action)
    requires Inv(t)
    ensures Inv(LoopStep(t, a))
  {
    hide Balanced;
    if a.Spawn? && t.loop.Spawning? {
      var r := Relay(Opening, 0, 0, 0);
      assert (t.relays + [r])[..|t.relays|] == t.relays;
      FreshRelay();
    }
  }

  lemma FreshRelay()
    ensures Balanced(Relay(Opening, 0, 0, 0))
  {
  }

  lemma CloseKeeps(t: Tunnel, a: Action)
    requires Inv(t)
    ensures Inv(CloseStep(t, a))
  {
    hide Balanced, Live;
  }

  lemma StepKeeps(t: Tunnel, a: Action)
    requires Inv(t)
    ensures Inv(Next(t, a))
  {
    hide Inv, LoopStep, CloseStep, RelayStep;
    if Subject(a).Some? {
      if Subject(a).value < |t.relays| { RelayKeeps(t, a, Subject(a).value); }
    } else {
      LoopKeeps(t, a);
      CloseKeeps(t, a);
    }
  }

  /** A relay's step, seen from outside it. */
  predicate Outcome(t: Tunnel, t': Tunnel, id: nat)
    requires id < |t.relays|
  {
    && |t'.relays| == |t.relays| && t'.relays == t.relays[id := t'.relays[id]] && Balanced(t'.relays[id])
    && t'.wg == t.wg - One(t.relays[id]) + One(t'.relays[id])
    && t'.faults == t.faults && t'.queued <= EVENTS_CAPACITY
    && t' == t.(relays := t'.relays, wg := t'.wg, queued := t'.queued, status := t'.status)
  }

  lemma OpenOutcome(t: Tunnel, a: Action, id: nat)
    requires id < |t.relays| && Balanced(t.relays[id]) && !t.closed && t.queued <= EVENTS_CAPACITY
    requires a.OpenStream? || a.RelaySend?
    ensures Outcome(t, RelayStep(t, a, id), id)
  {
  }

  lemma CopyOutcome(t: Tunnel, a: Action, id: nat)
    requires id < |t.relays| && Balanced(t.relays[id]) && t.queued <= EVENTS_CAPACITY
    requires a.CopyEnds? || a.TakeResult?
    ensures Outcome(t, RelayStep(t, a, id), id)
  {
  }

  lemma LeaveOutcome(t: Tunnel, a: Action, id: nat)
    requires id < |t.relays| && Balanced(t.relays[id]) && t.wg > 0 && t.queued <= EVENTS_CAPACITY
    requires a.SeeCancel? || a.RelayDone?
    ensures Outcome(t, RelayStep(t, a, id), id)
  {
  }

  lemma RelayOutcome(t: Tunnel, a: Action, id: nat)
    requires id < |t.relays| && Subject(a) == Some(id) && Balanced(t.relays[id])
    requires !t.closed && t.wg > 0 && t.queued <= EVENTS_CAPACITY
    ensures Outcome(t, RelayStep(t, a, id), id)
  {
    hide Outcome, RelayStep, Balanced;
    if a.OpenStream? || a.RelaySend? {
      OpenOutcome(t, a, id);
    } else if a.CopyEnds? || a.TakeResult? {
      CopyOutcome(t, a, id);
    } else {
      LeaveOutcome(t, a, id);
    }
  }

  lemma RelayKeeps(t: Tunnel, a: Action, id: nat)
    requires Inv(t) && id < |t.relays| && Subject(a) == Some(id)
    ensures Inv(RelayStep(t, a, id))
  {
    var t' := RelayStep(t, a, id);
    if t.relays[id].phase.RelayGone? {
      GoneOutcome(t, a, id);
    } else {
      LiveAtLeast(t.relays, id);
      RelayOutcome(t, a, id);
    }
    LiveUpdate(t.relays, id, t'.relays[id]);
    hide RelayStep, Balanced, Live;
  }

  /** Only its copies are left of a relay that is gone. */
  lemma GoneOutcome(t: Tunnel, a: Action, id: nat)
    requires id < |t.relays| && Subject(a) == Some(id) && Balanced(t.relays[id]) && t.relays[id].phase.RelayGone?
    ensures var t' := RelayStep(t, a, id);
            && |t'.relays| == |t.relays| && t'.relays == t.relays[id := t'.relays[id]] && Balanced(t'.relays[id])
            && t'.relays[id].phase.RelayGone? && t' == t.(relays := t'.relays)
  {
  }

  lemma {:induction false} LiveAtLeast(relays: seq<Relay>, id: nat)
    requires id < |relays| && !relays[id].phase.RelayGone?
    ensures Live(relays) > 0
  {
    if Live(relays) == 0 { NoneLive(relays, id); }
  }

  lemma {:induction false} ExecKeeps(t: Tunnel, actions: seq<Action>)
    requires Inv(t)
    ensures Inv(Exec(t, actions))
    decreases |actions|
  {
    if actions != [] {
      StepKeeps(t, actions[0]);
      ExecKeeps(Next(t, actions[0]), actions[1..]);
    }
  }

  // ---- Results ----

  /** After any steps: the wait group counts exactly the accept loop and the relays that are still
      running or about to be started, no send has met a closed channel and no counter rule was
      broken, and a copying goroutine always finds room for its result. */
  lemma ShutdownIsSafe(actions: seq<Action>)
    ensures var t := Exec(STARTED, actions);
            && t.faults == 0
            && t.wg == (if t.loop.LoopGone? then 0 else 1) + (if t.loop.Spawning? then 1 else 0) + Live(t.relays)
            && (t.closed ==> t.loop.LoopGone? && Live(t.relays) == 0 && t.status == Closed)
            && (forall i :: 0 <= i < |t.relays| && t.relays[i].copying > 0 ==> t.relays[i].results < RESULT_CAPACITY)
  {
    ExecKeeps(STARTED, actions);
    var t := Exec(STARTED, actions);
    assert forall i :: 0 <= i < |t.relays| ==> Balanced(t.relays[i]);
  }

  /** In particular, at every step: whoever is about to send finds the event channel open, whoever is
      about to count down finds something counted, a relay is counted while the accept loop still
      is, and a copying goroutine finds room for its result. */
  lemma EveryStepIsSafe(actions: seq<Action>, a: Action)
    ensures var t := Exec(STARTED, actions);
            match a
            case LoopSend => t.loop.LoopSending? ==> !t.closed
            case RelaySend(id) => id < |t.relays| && t.relays[id].phase.Sending? ==> !t.closed
            case CloseSend => t.closing.StatusSet? ==> !t.closed
            case CloseChannel => t.closing.Sent? ==> !t.closed
            case LoopDone => t.loop.LoopLeaving? ==> t.wg >= 1
            case RelayDone(id) => id < |t.relays| && t.relays[id].phase.Finished? ==> t.wg >= 1
            case Add => t.loop.Adding? ==> t.wg >= 1
            case CopyEnds(id) =>
              id < |t.relays| && t.relays[id].copying > 0 ==>
                Next(t, a).relays[id].copying == t.relays[id].copying - 1
            case _ => true
  {
    ExecKeeps(STARTED, actions);
    var t := Exec(STARTED, actions);
    hide Exec;
    if Subject(a).Some? && Subject(a).value < |t.relays| {
      var id := Subject(a).value;
      assert Balanced(t.relays[id]);
      if !t.relays[id].phase.RelayGone? { LiveAtLeast(t.relays, id); }
    }
    hide Live, Inv;
  }

  /** Once Close has set the status it is final, nothing is sent but Close's own event, and no
      relay is ever started again. */
  lemma {:induction false} ClosedIsFinal(t: Tunnel, actions: seq<Action>)
    requires Inv(t) && Quiet(t.closing) && !t.closing.Waited?
    ensures var t' := Exec(t, actions);
            && t'.status == Closed && |t'.relays| == |t.relays| && Quiet(t'.closing) && !t'.closing.Waited?
            && t'.queued <= t.queued + (if t.closing.StatusSet? then 1 else 0)
    decreases |actions|
  {
    if actions != [] {
      var t1, id := Next(t, actions[0]), Subject(actions[0]);
      StepKeeps(t, actions[0]);
      if id.Some? && id.value < |t.relays| { NoneLive(t.relays, id.value); }
      ClosedIsFinal(t1, actions[1..]);
    }
  }

  lemma RelaysStay(t: Tunnel, a: Action)
    requires t.loop.LoopGone?
    ensures Next(t, a).loop.LoopGone? && |Next(t, a).relays| == |t.relays|
  {
    if Subject(a).Some? {
    } else if a.Accept? || a.AcceptFails? || a.Add? || a.Spawn? || a.LoopSend? || a.LoopDone? {
    } else {
    }
  }

  /** What the status tells: connected when a stream was opened, reconnecting when opening one
      failed, one was lost, or the listener stopped by itself, closed by Close; nothing else sets it. */
  lemma StatusTells(t: Tunnel, a: Action)
    ensures var t' := Next(t, a);
            match a
            case OpenStream(id, ok) =>
              if id < |t.relays| && t.relays[id].phase.Opening? then
                t'.status == (if ok then Connected else Reconnecting) && t'.relays[id].phase == Sending(ok)
              else t' == t
            case TakeResult(id, lost) =>
              if id < |t.relays| && t.relays[id].phase.Waiting? && t.relays[id].results > 0 then
                && t'.status == (if lost then Reconnecting else t.status)
                && t'.relays[id].phase == (if lost then Sending(false) else Finished)
              else t' == t
            case AcceptFails =>
              t'.status == if t.loop.Accepting? && !t.cancelled then Reconnecting else t.status
            case CloseStatus => t'.status == if t.closing.Waited? then Closed else t.status
            case _ => t'.status == t.status
  {
  }

  /** An event is only ever lost when 32 wait. */
  lemma SentUnlessFull(t: Tunnel, id: nat)
    requires Inv(t) && id < |t.relays| && t.relays[id].phase.Sending?
    ensures Next(t, RelaySend(id)).queued == if t.queued < 32 then t.queued + 1 else t.queued
  {
    if t.closed { NoneLive(t.relays, id); }
  }

  /** A relay copies exactly when its stream was opened. */
  lemma SentThenCopies(t: Tunnel, id: nat)
    requires id < |t.relays| && t.relays[id].phase.Sending?
    ensures var r, r' := t.relays[id], Next(t, RelaySend(id)).relays[id];
            r' == if r.phase.ok then r.(phase := Waiting, copying := 2) else r.(phase := Finished)
  {
  }

  /** No relay starts once the accept loop is gone. */
  lemma {:induction false} NoRelayAfterLoop(t: Tunnel, actions: seq<Action>)
    requires t.loop.LoopGone?
    ensures Exec(t, actions).loop.LoopGone? && |Exec(t, actions).relays| == |t.relays|
    decreases |actions|
  {
    hide Next;
    if actions != [] {
      RelaysStay(t, actions[0]);
      NoRelayAfterLoop(Next(t, actions[0]), actions[1..]);
    }
  }

  // ---- Close completes ----

  /** How much is left to do. An effective step that sends leaves an event to receive, and a relay
      that connects leaves two copies to end, so those steps weigh more. */
  function LoopWork(l: Loop): nat
  {
    match l
    case LoopGone => 0 case LoopLeaving => 1 case LoopSending => 3
    case Accepting => 4 case Spawning => 14 case Adding => 15
  }

  function RelayWork(r: Relay): nat
  {
    r.copying + match r.phase
                case RelayGone => 0 case Finished => 1 case Waiting => 4
                case Sending(ok) => if ok then 8 else 3 case Opening => 9
  }

  function RelaysWork(relays: seq<Relay>): nat
  {
    if relays == [] then 0 else RelaysWork(relays[..|relays| - 1]) + RelayWork(relays[|relays| - 1])
  }

  function CloseWork(c: Closing): nat
  {
    match c
    case ChannelClosed => 0 case Sent => 1 case StatusSet => 3 case Waited => 4
    case Unlistened => 5 case Cancelled => 6 case NotCalled => 7
  }

  function Work(t: Tunnel): nat { LoopWork(t.loop) + RelaysWork(t.relays) + CloseWork(t.closing) + t.queued }

  lemma {:induction false} WorkUpdate(relays: seq<Relay>, id: nat, r: Relay)
    requires id < |relays|
    ensures RelaysWork(relays[id := r]) == RelaysWork(relays) - RelayWork(relays[id]) + RelayWork(r)
    decreases |relays|
  {
    var init := relays[..|relays| - 1];
    if id == |relays| - 1 {
      assert relays[id := r][..|relays| - 1] == init;
    } else {
      assert relays[id := r][..|relays| - 1] == init[id := r];
      WorkUpdate(init, id, r);
    }
  }

  lemma {:induction false} SomeLive(relays: seq<Relay>) returns (id: nat)
    requires Live(relays) > 0
    ensures id < |relays| && !relays[id].phase.RelayGone?
    decreases |relays|
  {
    if relays[|relays| - 1].phase.RelayGone? {
      id := SomeLive(relays[..|relays| - 1]);
    } else {
      id := |relays| - 1;
    }
  }

  function LoopAction(l: Loop): Action
  {
    match l
    case Accepting => AcceptFails case Adding => Add case Spawning => Spawn
    case LoopSending => LoopSend case LoopLeaving => LoopDone case LoopGone => ReceiveEvent
  }

  function RelayAction(p: Phase, id: nat): Action
  {
    match p
    case Opening => OpenStream(id, false) case Sending(_) => RelaySend(id) case Waiting => SeeCancel(id)
    case Finished => RelayDone(id) case RelayGone => ReceiveEvent
  }

  function CloseAction(c: Closing): Action
  {
    match c
    case NotCalled => CloseCancel case Cancelled => CloseListener case Unlistened => CloseWait
    case Waited => CloseStatus case StatusSet => CloseSend case Sent => CloseChannel case ChannelClosed => ReceiveEvent
  }

  lemma RelayProgress(t: Tunnel, id: nat)
    requires id < |t.relays| && !t.relays[id].phase.RelayGone? && t.cancelled
    ensures Work(RelayStep(t, RelayAction(t.relays[id].phase, id), id)) < Work(t)
  {
    var t' := RelayStep(t, RelayAction(t.relays[id].phase, id), id);
    WorkUpdate(t.relays, id, t'.relays[id]);
    hide RelaysWork;
  }

  lemma LoopProgress(t: Tunnel)
    requires !t.loop.LoopGone?
    ensures Work(LoopStep(t, LoopAction(t.loop))) < Work(t)
  {
    if t.loop.Spawning? {
      assert (t.relays + [Relay(Opening, 0, 0, 0)])[..|t.relays|] == t.relays;
    }
  }

  lemma CloseProgress(t: Tunnel)
    requires !t.closing.ChannelClosed? && (t.closing.Unlistened? ==> t.wg == 0)
    ensures Work(CloseStep(t, CloseAction(t.closing))) < Work(t)
  {
  }

  /** A call of the opener that has not returned, or is about to be made. What it returns, and
      whether it does, is not in the tunnel's hands. */
  predicate Pending(t: Tunnel)
  {
    t.loop.Adding? || t.loop.Spawning? || exists i :: 0 <= i < |t.relays| && t.relays[i].phase.Opening?
  }

  /** Close waits for relays that all wait for the opener. */
  predicate AwaitsOpener(t: Tunnel)
  {
    && t.closing.Unlistened? && t.loop.LoopGone? && Live(t.relays) > 0
    && forall i :: 0 <= i < |t.relays| ==> t.relays[i].phase.RelayGone? || t.relays[i].phase.Opening?
  }

  /** Until Close is through, some goroutine can take a step that brings its end nearer; only when
      Close waits for relays that all wait for the opener is it the opener that has to. */
  lemma Progress(t: Tunnel) returns (a: Action)
    requires Inv(t) && !t.closed
    ensures Work(Next(t, a)) < Work(t)
    ensures a.OpenStream? <==> AwaitsOpener(t)
  {
    hide RelayStep, LoopStep, CloseStep, Work;
    if !(t.closing.Unlistened? && t.wg > 0) {
      a := CloseAction(t.closing);
      CloseProgress(t);
    } else if !t.loop.LoopGone? {
      a := LoopAction(t.loop);
      LoopProgress(t);
    } else {
      var id := SomeLive(t.relays);
      if !AwaitsOpener(t) {
        id :| 0 <= id < |t.relays| && !t.relays[id].phase.RelayGone? && !t.relays[id].phase.Opening?;
      }
      a := RelayAction(t.relays[id].phase, id);
      RelayProgress(t, id);
    }
  }

  predicate NoOpener(actions: seq<Action>)
  {
    forall i :: 0 <= i < |actions| ==> !actions[i].OpenStream?
  }

  /** Only the opener's return ends a pending call. */
  lemma PendingStays(t: Tunnel, a: Action)
    requires Pending(t) && !a.OpenStream?
    ensures Pending(Next(t, a))
  {
    var t' := Next(t, a);
    if t.loop.Spawning? {
      assert a.Spawn? ==> t'.relays[|t.relays|].phase.Opening?;
    } else if !t.loop.Adding? {
      var i :| 0 <= i < |t.relays| && t.relays[i].phase.Opening?;
      OpeningStays(t, a, i);
    }
  }

  lemma OpeningStays(t: Tunnel, a: Action, i: nat)
    requires i < |t.relays| && t.relays[i].phase.Opening? && !a.OpenStream?
    ensures i < |Next(t, a).relays| && Next(t, a).relays[i].phase.Opening?
  {
    if Subject(a).Some? {
      if Subject(a).value < |t.relays| { OthersStay(t, a, Subject(a).value, i); }
      hide RelayStep;
    } else {
      assert t.relays <= LoopStep(t, a).relays && CloseStep(t, a).relays == t.relays;
    }
  }

  lemma OthersStay(t: Tunnel, a: Action, id: nat, i: nat)
    requires i < |t.relays| && id < |t.relays| && t.relays[i].phase.Opening? && !a.OpenStream?
    ensures i < |RelayStep(t, a, id).relays| && RelayStep(t, a, id).relays[i].phase.Opening?
  {
  }

  lemma {:induction false} PendingBlocks(t: Tunnel, actions: seq<Action>)
    requires Inv(t) && Pending(t) && NoOpener(actions)
    ensures Pending(Exec(t, actions)) && !Exec(t, actions).closed
    decreases |actions|
  {
    if actions == [] {
      if t.closed && !(t.loop.Adding? || t.loop.Spawning?) {
        var i :| 0 <= i < |t.relays| && t.relays[i].phase.Opening?;
        NoneLive(t.relays, i);
      }
    } else {
      PendingStays(t, actions[0]);
      StepKeeps(t, actions[0]);
      PendingBlocks(Next(t, actions[0]), actions[1..]);
    }
  }

  lemma NothingPending(t: Tunnel, a: Action)
    requires Inv(t) && !Pending(t) && !a.Accept?
    ensures !Pending(Next(t, a))
  {
  }

  /** From every reachable state Close can run to its end if every pending call of the opener
      returns; and without the opener if none is pending. */
  lemma {:induction false} CloseCompletes(t: Tunnel) returns (actions: seq<Action>)
    requires Inv(t)
    ensures Exec(t, actions).closed && Exec(t, actions).status == Closed
    ensures !Pending(t) ==> NoOpener(actions)
    decreases Work(t)
  {
    if t.closed {
      actions := [];
    } else {
      var a := Progress(t);
      StepKeeps(t, a);
      if !Pending(t) {
        NotAwaiting(t);
        NothingPending(t, a);
      }
      var rest := CloseCompletes(Next(t, a));
      actions := [a] + rest;
      assert actions[1..] == rest;
    }
  }

  lemma NotAwaiting(t: Tunnel)
    requires !Pending(t)
    ensures !AwaitsOpener(t)
  {
    if Live(t.relays) > 0 {
      var id := SomeLive(t.relays);
    }
  }

  /** Whether Close can end without waiting for the opener can be told beforehand: exactly when no
      call of it is pending. */
  lemma CloseEndsIffNothingPending(t: Tunnel)
    requires Inv(t)
    ensures (exists actions :: NoOpener(actions) && Exec(t, actions).closed) <==> !Pending(t)
  {
    if Pending(t) {
      forall actions | NoOpener(actions) ensures !Exec(t, actions).closed { PendingBlocks(t, actions); }
    } else {
      var actions := CloseCompletes(t);
      assert NoOpener(actions) && Exec(t, actions).closed;
    }
  }

  /** One connection is accepted, and its opener never returns; Close is called. */
  const ACCEPTING: seq<Action> := [Accept] + ([Add] + [Spawn])

  const CLOSING: seq<Action> := [CloseCancel] + ([CloseListener] + ([AcceptFails] + ([LoopDone] + [ReceiveEvent])))

  const OPENING := STARTED.(relays := [Relay(Opening, 0, 0, 0)], wg := 2)

  const HUNG :=
    OPENING.(loop := LoopGone, wg := 1, closing := Unlistened, listening := false, cancelled := true, queued := 0)

  lemma ExecFirst(t: Tunnel, a: Action, rest: seq<Action>)
    ensures Exec(t, [a] + rest) == Exec(Next(t, a), rest)
  {
    assert ([a] + rest)[1..] == rest;
  }

  lemma ExecOne(t: Tunnel, a: Action)
    ensures Exec(t, [a]) == Next(t, a)
  {
    assert [a][1..] == [];
  }

  lemma {:induction false} ExecAppend(t: Tunnel, a: seq<Action>, b: seq<Action>)
    ensures Exec(t, a + b) == Exec(Exec(t, a), b)
    decreases |a|
  {
    if a == [] {
      assert a + b == b;
    } else {
      assert (a + b)[1..] == a[1..] + b;
      ExecAppend(Next(t, a[0]), a[1..], b);
    }
  }

  lemma Accepts()
    ensures Exec(STARTED, ACCEPTING) == OPENING
  {
    hide Exec;
    var t1 := Next(STARTED, Accept);
    ExecFirst(STARTED, Accept, [Add] + [Spawn]);
    ExecFirst(t1, Add, [Spawn]);
    ExecOne(Next(t1, Add), Spawn);
  }

  lemma Waits()
    ensures Exec(OPENING, CLOSING) == HUNG
  {
    hide Exec;
    var t1 := Next(OPENING, CloseCancel);
    var t2 := Next(t1, CloseListener);
    var t3 := Next(t2, AcceptFails);
    var t4 := Next(t3, LoopDone);
    ExecFirst(OPENING, CloseCancel, [CloseListener] + ([AcceptFails] + ([LoopDone] + [ReceiveEvent])));
    ExecFirst(t1, CloseListener, [AcceptFails] + ([LoopDone] + [ReceiveEvent]));
    ExecFirst(t2, AcceptFails, [LoopDone] + [ReceiveEvent]);
    ExecFirst(t3, LoopDone, [ReceiveEvent]);
    ExecOne(t4, ReceiveEvent);
  }

  /** A reachable state in which Close waits for good: nothing but the opener's return changes it. */
  lemma CloseCanHang()
    ensures Exec(STARTED, ACCEPTING + CLOSING) == HUNG && Inv(HUNG) && !HUNG.closed && AwaitsOpener(HUNG)
    ensures forall a :: Next(HUNG, a) != HUNG ==> a.OpenStream?
  {
    StartedInv();
    hide Exec, Inv;
    ExecKeeps(STARTED, ACCEPTING + CLOSING);
    ExecAppend(STARTED, ACCEPTING, CLOSING);
    Accepts();
    Waits();
    assert Live(HUNG.relays) == Live(HUNG.relays[..0]) + 1;
    forall a ensures Next(HUNG, a) != HUNG ==> a.OpenStream? {
      if !a.OpenStream? { HungStays(a); }
    }
  }

  lemma StartedInv()
    ensures Inv(STARTED)
  {
  }

  lemma HungStays(a: Action)
    requires !a.OpenStream?
    ensures Next(HUNG, a) == HUNG
  {
  }

  lemma LoopWorks(t: Tunnel, a: Action)
    requires !t.listening && !t.closed && LoopStep(t, a) != t
    ensures Work(LoopStep(t, a)) < Work(t)
  {
    if a.Spawn? {
      assert (t.relays + [Relay(Opening, 0, 0, 0)])[..|t.relays|] == t.relays;
    }
  }

  lemma CloseWorks(t: Tunnel, a: Action)
    requires !t.listening && t.cancelled && !t.closed && CloseStep(t, a) != t
    ensures Work(CloseStep(t, a)) < Work(t)
  {
    hide RelaysWork;
  }

  lemma RelayWorks(t: Tunnel, a: Action, id: nat)
    requires id < |t.relays| && Subject(a) == Some(id) && RelayStep(t, a, id) != t
    requires t.closed ==> t.relays[id].phase.RelayGone?
    ensures Work(RelayStep(t, a, id)) < Work(t)
  {
    WorkUpdate(t.relays, id, RelayStep(t, a, id).relays[id]);
    hide RelaysWork;
  }

  /** After Close only the copies and the receiver are left. */
  lemma ClosedWorks(t: Tunnel, a: Action)
    requires Inv(t) && t.closed && !Subject(a).Some? && Next(t, a) != t
    ensures Work(Next(t, a)) < Work(t)
  {
    hide RelaysWork;
  }

  /** Once Close has closed the listener, every step that changes anything brings the end nearer,
      whoever takes it. */
  lemma EveryStepWorks(t: Tunnel, a: Action)
    requires Inv(t) && !t.listening && Next(t, a) != t
    ensures Work(Next(t, a)) < Work(t)
  {
    hide RelayStep, LoopStep, CloseStep, Work;
    if Subject(a).Some? {
      var id := Subject(a).value;
      if t.closed { NoneLive(t.relays, id); }
      RelayWorks(t, a, id);
    } else if t.closed {
      ClosedWorks(t, a);
    } else if a.Accept? || a.AcceptFails? || a.Add? || a.Spawn? || a.LoopSend? || a.LoopDone? {
      LoopWorks(t, a);
    } else {
      CloseWorks(t, a);
    }
  }

  /** How many steps of a schedule change anything. */
  function Effective(t: Tunnel, actions: seq<Action>): nat
    decreases |actions|
  {
    if actions == [] then 0
    else (if Next(t, actions[0]) != t then 1 else 0) + Effective(Next(t, actions[0]), actions[1..])
  }

  /** When only the opener can still do anything, Close has ended if and only if no relay waits
      for it. */
  lemma StuckIffOpening(t: Tunnel)
    requires Inv(t) && !t.listening && (forall a :: Next(t, a) != t ==> a.OpenStream?)
    ensures t.closed <==> forall i :: 0 <= i < |t.relays| ==> !t.relays[i].phase.Opening?
  {
    if t.closed {
      forall i | 0 <= i < |t.relays| ensures !t.relays[i].phase.Opening? { NoneLive(t.relays, i); }
    } else {
      var a := Progress(t);
      assert Next(t, a) != t;
      var id := SomeLive(t.relays);
    }
  }

  /** So under every schedule Close ends if the pending calls of the opener return: no schedule has
      more effective steps than there is work, and one that has that many has closed the tunnel.
      As long as the tunnel is not closed some step is effective, and it need not be the opener's
      unless Close waits for relays that all wait for the opener; a schedule that leaves nothing
      but the opener to move has closed the tunnel if and only if no relay waits for it. */
  lemma {:induction false} CloseEnds(t: Tunnel, actions: seq<Action>)
    requires Inv(t) && !t.listening
    ensures var t' := Exec(t, actions);
            && Effective(t, actions) + Work(t') <= Work(t) && !t'.listening
            && (Effective(t, actions) == Work(t) ==> t'.closed)
            && (t'.closed || AwaitsOpener(t') || exists a: Action :: !a.OpenStream? && Next(t', a) != t')
            && (t'.closed || exists a :: Next(t', a) != t')
            && ((forall a :: Next(t', a) != t' ==> a.OpenStream?) ==>
                  (t'.closed <==> forall i :: 0 <= i < |t'.relays| ==> !t'.relays[i].phase.Opening?))
    decreases |actions|
  {
    if actions == [] {
      if !t.closed {
        var a := Progress(t);
        assert Next(t, a) != t;
      }
      if forall a :: Next(t, a) != t ==> a.OpenStream? { StuckIffOpening(t); }
    } else {
      var t1 := Next(t, actions[0]);
      if t1 != t { EveryStepWorks(t, actions[0]); }
      StepKeeps(t, actions[0]);
      StaysUnlistened(t, actions[0]);
      CloseEnds(t1, actions[1..]);
    }
  }

  lemma StaysUnlistened(t: Tunnel, a: Action)
    requires !t.listening
    ensures !Next(t, a).listening
  {
  }
}
