// The Pi's request handler (bottle-agent/internal/agent/agent.go): sessions reach the provisioning
// workflow and the survey through it, and it tells the bus about both.
module Agent {
  import opened Prelude
  import opened Machine
  import opened Provisioning
  import Redaction
  import Events
  import EventBus
  import FileJobs
  import LiveBus
  import Session

  function StateName(s: State): string
  {
    match s
    case Queued => "queued"
    case Running => "running"
    case Succeeded => "succeeded"
    case Failed => "failed"
    case NeedsInput => "needs_input"
  }

  function CheckpointName(c: Checkpoint): string
  {
    match c
    case Backup => "backup"
    case Packages => "packages"
    case Configure => "configure"
    case Services => "services"
    case Health => "health"
  }

  function PhaseName(p: Phase): string
  {
    match p
    case Unset => ""
    case Preflight => "preflight"
    case ConfirmConfig => "confirm_config"
    case At(c) => CheckpointName(c)
    case Complete => "complete"
    case VerifyManifest => "verify_manifest"
    case Download => "download"
    case VerifyDigest => "verify_digest"
    case Stage => "stage"
    case Activate => "activate"
    case Rollback => "rollback"
    case RolledBack => "rolled_back"
  }

  /** An event as handed to Publish; the bus gives it its number. */
  function Draft(severity: string, source: string, kind: string, payload: map<string, string>, now: int): Events.Event
  {
    Events.Event(0, now, severity, source, kind, Some(map k | k in payload :: Redaction.Text(payload[k])))
  }

  /** What the bus is told about a provisioning run that came back. */
  function JobEvent(requestID: string, o: Outcome, now: int): Events.Event
  {
    match o
    case Finished(job) =>
      Draft(if job.state.Failed? then "error" else "info", "lifecycle", "provision_" + StateName(job.state),
            map["request_id" := job.id, "state" := StateName(job.state), "phase" := PhaseName(job.phase),
                "message" := Words(job.message)], now)
    case _ =>
      Draft("error", "lifecycle", "provision_error",
            map["request_id" := requestID, "error" := "provision request id is required"], now)
  }

  function SurveyEvent(start: bool, error: Option<string>, now: int): Events.Event
  {
    var action := if start then "start" else "stop";
    match error
    case Some(e) => Draft("error", "survey", "survey_" + action + "_error", map["error" := e], now)
    case None =>
      Draft("info", "survey", "survey_" + action, map["state" := if start then "running" else "idle"], now)
  }

  /** Everything the handler publishes is valid for the client, which is what prefix delivery
      asks of the published events. */
  lemma PublishedAreValid(requestID: string, o: Outcome, start: bool, error: Option<string>, now: int)
    requires now != 0
    ensures Events.ValidationError(JobEvent(requestID, o, now)).None?
    ensures Events.ValidationError(SurveyEvent(start, error, now)).None?
  {
  }

  /** What an event about provisioning tells: the outcome, for every one that is published. */
  lemma JobEventTells(requestID: string, o: Outcome, now: int)
    ensures var e := JobEvent(requestID, o, now);
            && e.source == "lifecycle" && e.occurredAt == now && e.payload.Some?
            && (e.severity == "error" <==> !o.Finished? || o.job.state.Failed?)
            && (e.severity == "info" <==> o.Finished? && !o.job.state.Failed?)
            && (e.kind == "provision_succeeded" <==> o.Finished? && o.job.state.Succeeded?)
            && (e.kind == "provision_failed" <==> o.Finished? && o.job.state.Failed?)
            && (e.kind == "provision_needs_input" <==> o.Finished? && o.job.state.NeedsInput?)
            && (e.kind == "provision_error" <==> !o.Finished?)
  {
    Lengths();
    KindTells(requestID, o, now);
  }

  lemma Lengths()
    ensures |"succeeded"| == 9 && |"failed"| == 6 && |"needs_input"| == 11 && |"queued"| == 6 && |"running"| == 7
  {
  }

  lemma KindTells(requestID: string, o: Outcome, now: int)
    ensures JobEvent(requestID, o, now).kind ==
            (if !o.Finished? then "provision_error"
             else match o.job.state
               case Queued => "provision_queued"
               case Running => "provision_running"
               case Succeeded => "provision_succeeded"
               case Failed => "provision_failed"
               case NeedsInput => "provision_needs_input")
  {
    if o.Finished? {
      KindOf(o.job.state);
      hide StateName;
    }
  }

  lemma KindOf(s: State)
    ensures "provision_" + StateName(s) ==
            match s
            case Queued => "provision_queued"
            case Running => "provision_running"
            case Succeeded => "provision_succeeded"
            case Failed => "provision_failed"
            case NeedsInput => "provision_needs_input"
  {
    match s
    case Queued => assert "provision_" + "queued" == "provision_queued";
    case Running => assert "provision_" + "running" == "provision_running";
    case Succeeded => assert "provision_" + "succeeded" == "provision_succeeded";
    case Failed => assert "provision_" + "failed" == "provision_failed";
    case NeedsInput => assert "provision_" + "needs_input" == "provision_needs_input";
  }

  /** No two phases are told alike. */
  lemma PhasesDiffer(a: Phase, b: Phase)
    requires PhaseName(a) == PhaseName(b)
    ensures a == b
  {
    PhaseIs(a);
    PhaseIs(b);
    hide PhaseName;
  }

  function Mark(p: Phase): (nat, char, char)
  {
    match p
    case Unset => (0, ' ', ' ')
    case Preflight => (9, 'p', 'r')
    case ConfirmConfig => (14, 'c', 'o')
    case At(Backup) => (6, 'b', 'a')
    case At(Packages) => (8, 'p', 'a')
    case At(Configure) => (9, 'c', 'o')
    case At(Services) => (8, 's', 'e')
    case At(Health) => (6, 'h', 'e')
    case Complete => (8, 'c', 'o')
    case VerifyManifest => (15, 'v', 'e')
    case Download => (8, 'd', 'o')
    case VerifyDigest => (13, 'v', 'e')
    case Stage => (5, 's', 't')
    case Activate => (8, 'a', 'c')
    case Rollback => (8, 'r', 'o')
    case RolledBack => (11, 'r', 'o')
  }

  lemma PhaseIs(p: Phase)
    ensures |PhaseName(p)| == Mark(p).0
    ensures |PhaseName(p)| > 1 ==> PhaseName(p)[0] == Mark(p).1 && PhaseName(p)[1] == Mark(p).2
  {
  }

  /** And its details: the job's own, or the refused request and why. */
  lemma JobEventDetails(requestID: string, o: Outcome, now: int)
    ensures o.Finished? ==>
              var p := JobEvent(requestID, o, now).payload.value;
              p.Keys == {"request_id", "state", "phase", "message"}
              && p["request_id"] == Redaction.Text(o.job.id) && p["message"] == Redaction.Text(Words(o.job.message))
              && p["state"] == Redaction.Text(StateName(o.job.state))
              && p["phase"] == Redaction.Text(PhaseName(o.job.phase))
    ensures !o.Finished? ==>
              JobEvent(requestID, o, now).payload.value ==
              map["request_id" := Redaction.Text(requestID),
                  "error" := Redaction.Text("provision request id is required")]
  {
  }

  /** What an event about the survey tells: whether the command went through, and which. */
  lemma SurveyEventTells(start: bool, error: Option<string>, now: int)
    ensures var e := SurveyEvent(start, error, now);
            && e.source == "survey" && e.occurredAt == now && e.severity == (if error.None? then "info" else "error")
            && (error.None? ==>
                  && e.kind == (if start then "survey_start" else "survey_stop")
                  && e.payload == Some(map["state" := Redaction.Text(if start then "running" else "idle")]))
            && (error.Some? ==>
                  && e.kind == (if start then "survey_start_error" else "survey_stop_error")
                  && e.payload == Some(map["error" := Redaction.Text(error.value)]))
  {
    var p := SurveyEvent(start, error, now).payload.value;
    if error.None? {
      assert p == map["state" := Redaction.Text(if start then "running" else "idle")];
    } else {
      assert p == map["error" := Redaction.Text(error.value)];
    }
  }

  /** No provisioning request that came through a session ends waiting for input: the session only
      lets confirmed ones through, and a confirmed run does not ask. */
  lemma SessionsNeverLeaveQuestions(c: Session.Setting, frames: seq<Session.Frame>, j: nat,
                                    s: FileJobs.Store, id: string, probes: Probes)
    requires j < |Session.Handled(c, frames, |frames|).calls|
    requires Session.Handled(c, frames, |frames|).calls[j].op.Provision?
    ensures var o := RunJob(s, id, Session.Handled(c, frames, |frames|).calls[j].confirm, probes).0;
            o.Finished? ==> !o.job.state.NeedsInput?
  {
    Session.SessionHolds(c, frames, |frames|);
    ConfirmedNeverAsks(s, id, probes);
  }

  class Handler {
    const provisioner: Provisioner
    const bus: LiveBus.Bus
    var surveyState: string

    constructor (provisioner: Provisioner, bus: LiveBus.Bus)
      ensures this.provisioner == provisioner && this.bus == bus && surveyState == "idle"
    {
      this.provisioner, this.bus, surveyState := provisioner, bus, "idle";
    }

    ghost predicate Wired()
      reads this, bus, bus.subs.Values
    {
      provisioner.file.host == provisioner.host && bus.Valid()
    }

    /** None for a payload that cannot be decoded. A run that comes back is published once; one
        that takes the process with it is not. */
    method Provision(requestID: Option<string>, confirm: bool, probes: Probes, now: int) returns (o: Option<Outcome>)
      requires Wired()
      modifies provisioner.file`jobs, provisioner.host, bus, bus.subs.Values
      ensures requestID.None? ==> o.None? && bus.State() == old(bus.State())
      ensures requestID.Some? ==> o.Some?
      ensures requestID.Some? ==>
                (o.value, provisioner.file.State())
                == RunJob(old(provisioner.file.State()), requestID.value, confirm, probes)
      ensures requestID.Some? ==>
                bus.State() == if o.value.Crashed? then old(bus.State())
                               else EventBus.Publish(old(bus.State()), JobEvent(requestID.value, o.value, now))
    {
      hide EventBus.Publish, JobEvent, RunJob;
      if requestID.None? {
        return None;
      }
      var outcome := provisioner.Run(requestID.value, confirm, probes);
      if !outcome.Crashed? {
        var _ := bus.Publish(JobEvent(requestID.value, outcome, now));
      }
      return Some(outcome);
    }

    /** The survey state follows the command, and only a command that went through. */
    method Survey(start: bool, confirm: bool, now: int) returns (error: Option<string>)
      requires Wired()
      modifies this, provisioner.host, bus, bus.subs.Values
      ensures !confirm ==> error.Some? && surveyState == old(surveyState) && bus.State() == old(bus.State())
                           && provisioner.host.world == old(provisioner.host.world)
      ensures confirm ==> provisioner.host.world == Asked(old(provisioner.host.world))
      ensures confirm ==>
                match NextAnswer(old(provisioner.host.world))
                case Good => error.None? && surveyState == (if start then "running" else "idle")
                             && bus.State() == EventBus.Publish(old(bus.State()), SurveyEvent(start, None, now))
                case Bad(reason) => error == Some(reason) && surveyState == old(surveyState)
                             && bus.State() == EventBus.Publish(old(bus.State()), SurveyEvent(start, error, now))
                case Dead(_) => surveyState == old(surveyState) && bus.State() == old(bus.State())
    {
      hide EventBus.Publish, SurveyEvent;
      if !confirm {
        return Some("explicit confirmation is required for survey control");
      }
      var a := provisioner.host.Ask();
      match a
      case Dead(_) => error := Some("killed");
      case Bad(reason) =>
        error := Some(reason);
        var _ := bus.Publish(SurveyEvent(start, error, now));
      case Good =>
        error := None;
        surveyState := if start then "running" else "idle";
        var _ := bus.Publish(SurveyEvent(start, None, now));
    }
  }
}
