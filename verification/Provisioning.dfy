// The provisioning workflow (bottle-agent/internal/lifecycle/lifecycle.go:93-189) as a function
// of the job store, the host's probes and the script of its answers.
module Provisioning {
  import opened Prelude
  import opened Machine
  import opened FileJobs

  /** The checkpointed operations, in order. */
  const ORDER: seq<Checkpoint> := [Backup, Packages, Configure, Services]

  const PROTECTED: seq<string> := ["/etc/kismet/kismet.conf", "/etc/bottle-agent/config.yaml"]

  /** What the host's read-only probes say in one run. */
  datatype Probes = Probes(
    architecture: string, bookworm: bool, storageMB: int, eth0: bool, radios: nat, gps: bool, configs: set<string>)

  function Objection(p: Probes): Option<Unfitness>
  {
    if p.architecture != "arm64" then Some(Architecture(p.architecture))
    else if !p.bookworm then Some(NotBookworm)
    else if p.storageMB < 2048 then Some(LowStorage)
    else if !p.eth0 then Some(NoEthernet)
    else if p.radios == 0 then Some(NoRadio)
    else if !p.gps then Some(NoGPS)
    else None
  }

  function Changed(p: Probes, paths: seq<string>): seq<string>
  {
    if paths == [] then []
    else Changed(p, paths[..|paths| - 1])
         + (if paths[|paths| - 1] in p.configs then [paths[|paths| - 1]] else [])
  }

  /** A run ends with a job, without an ID to work on, or with the process. */
  datatype Outcome = Finished(job: Job) | NoID | Crashed

  function NewJob(id: string): Job { Job(id, "provision", Queued, Unset, Blank, [], {}) }

  /** Puts the job and returns it. */
  function Conclude(s: Store, job: Job): (Outcome, Store)
  {
    var (ok, s') := Replaced(s, job);
    (if ok then Finished(job) else Crashed, s')
  }

  function Fail(s: Store, job: Job, phase: Phase, message: Message): (Outcome, Store)
  {
    Conclude(s, job.(state := Failed, phase := phase, message := message))
  }

  /** Whether a checkpointed operation went through, failed, or took the process with it. */
  function Operate(s: Store, id: string, op: Checkpoint): (Answer, Store)
  {
    (NextAnswer(s.w), s.(w := Performed(s.w, id, op)))
  }

  function CheckHealth(s: Store, job: Job): (Outcome, Store)
  {
    var s' := s.(w := Asked(s.w));
    match NextAnswer(s.w)
    case Good =>
      Conclude(s', job.(completed := job.completed + {Health}, state := Succeeded, phase := Complete,
                        message := Provisioned))
    case Bad(reason) => Fail(s', job, At(Health), Told(reason))
    case Dead(_) => (Crashed, s')
  }

  /** The operations from the i-th on, then the health check. */
  function Steps(s: Store, job: Job, i: nat): (Outcome, Store)
    requires i <= |ORDER|
    decreases |ORDER| - i, 1, s.w.nextTemp  // the world in it keeps Dafny from unrolling a run whole
  {
    if i == |ORDER| then CheckHealth(s, job)
    else if ORDER[i] in job.completed then Steps(s, job, i + 1)
    else
      var job1 := job.(state := Running, phase := At(ORDER[i]));
      var (ok, s1) := Replaced(s, job1);
      if ok then OperateFrom(s1, job1, i) else (Crashed, s1)
  }

  /** The i-th operation, without a Put before it, and what follows. */
  function OperateFrom(s: Store, job: Job, i: nat): (Outcome, Store)
    requires i < |ORDER|
    decreases |ORDER| - i, 0, s.w.nextTemp
  {
    var (a, s') := Operate(s, job.id, ORDER[i]);
    match a
    case Good => Steps(s', job.(completed := job.completed + {ORDER[i]}), i + 1)
    case Bad(reason) => Fail(s', job, At(ORDER[i]), Told(reason))
    case Dead(_) => (Crashed, s')
  }

  function RunJob(s: Store, id: string, confirm: bool, probes: Probes): (Outcome, Store)
  {
    if id == "" then (NoID, s)
    else
      var job := if id in s.jobs then s.jobs[id] else NewJob(id);
      if job.state.Succeeded? then (Finished(job), s)
      else if Objection(probes).Some? then Fail(s, job, Preflight, Unfit(Objection(probes).value))
      else if Backup in job.completed then Steps(s, job, 1)
      else if Changed(probes, PROTECTED) != [] && !confirm then
        Conclude(s, job.(state := NeedsInput, phase := ConfirmConfig, message := ConfirmFirst,
                         changedPaths := Changed(probes, PROTECTED)))
      else OperateFrom(s, job, 0)
  }

  // ---- Confirmation ----

  lemma {:induction false} StepsNeverAsk(s: Store, job: Job, i: nat)
    requires i <= |ORDER|
    ensures Steps(s, job, i).0.Finished? ==> !Steps(s, job, i).0.job.state.NeedsInput?
    decreases |ORDER| - i, 1
  {
    hide Replaced, OperateFrom;
    if i < |ORDER| {
      if ORDER[i] in job.completed {
        StepsNeverAsk(s, job, i + 1);
      } else {
        var job1 := job.(state := Running, phase := At(ORDER[i]));
        OperateNeverAsks(Replaced(s, job1).1, job1, i);
      }
    }
  }

  lemma {:induction false} OperateNeverAsks(s: Store, job: Job, i: nat)
    requires i < |ORDER|
    ensures OperateFrom(s, job, i).0.Finished? ==> !OperateFrom(s, job, i).0.job.state.NeedsInput?
    decreases |ORDER| - i, 0
  {
    hide Replaced, Steps;
    StepsNeverAsk(Operate(s, job.id, ORDER[i]).1, job.(completed := job.completed + {ORDER[i]}), i + 1);
  }

  /** A confirmed run never ends waiting for confirmation, whatever is on file: not even a job
      that an earlier, unconfirmed run left waiting. */
  lemma ConfirmedNeverAsks(s: Store, id: string, probes: Probes)
    ensures RunJob(s, id, true, probes).0.Finished? ==> !RunJob(s, id, true, probes).0.job.state.NeedsInput?
  {
    hide Replaced, Steps, OperateFrom;
    var job := if id in s.jobs then s.jobs[id] else NewJob(id);
    StepsNeverAsk(s, job, 1);
    OperateNeverAsks(s, job, 0);
  }

  // ---- The workflow as the source runs it ----

  class Provisioner {
    const host: Host
    const file: JobFile

    constructor (host: Host, file: JobFile)
      requires file.host == host
      ensures this.host == host && this.file == file
    {
      this.host, this.file := host, file;
    }

    method Put(job: Job) returns (outcome: Outcome)
      requires file.host == host
      modifies file`jobs, host
      ensures (outcome, file.State()) == Conclude(old(file.State()), job)
    {
      var ok := file.Put(job);
      outcome := if ok then Finished(job) else Crashed;
    }

    method ExistingConfigs(probes: Probes) returns (changed: seq<string>)
      ensures changed == Changed(probes, PROTECTED)
    {
      changed := [];
      for i := 0 to |PROTECTED|
        invariant changed == Changed(probes, PROTECTED[..i])
      {
        assert PROTECTED[..i + 1][..i] == PROTECTED[..i];
        if PROTECTED[i] in probes.configs {
          changed := changed + [PROTECTED[i]];
        }
      }
      assert PROTECTED[..|PROTECTED|] == PROTECTED;
    }

    method Run(id: string, confirm: bool, probes: Probes) returns (outcome: Outcome)
      requires file.host == host
      modifies file`jobs, host
      ensures (outcome, file.State()) == RunJob(old(file.State()), id, confirm, probes)
    {
      if id == "" {
        return NoID;
      }
      var prior := file.Get(id);
      var job := if prior.Some? then prior.value else NewJob(id);
      if job.state.Succeeded? {
        return Finished(job);
      }
      var refusal := Objection(probes);
      if refusal.Some? {
        outcome := Put(job.(state := Failed, phase := Preflight, message := Unfit(refusal.value)));
        return;
      }
      if Backup !in job.completed {
        var changed := ExistingConfigs(probes);
        if |changed| > 0 && !confirm {
          outcome := Put(job.(state := NeedsInput, phase := ConfirmConfig, message := ConfirmFirst,
                              changedPaths := changed));
          return;
        }
        var a := host.Perform(job.id, Backup);
        if a.Bad? {
          outcome := Put(job.(state := Failed, phase := At(Backup), message := Told(a.reason)));
          return;
        }
        if a.Dead? {
          return Crashed;
        }
        job := job.(completed := job.completed + {Backup});
      }
      outcome := RunSteps(job);
    }

    /** The three installation steps and the final health check. */
    method RunSteps(start: Job) returns (outcome: Outcome)
      requires file.host == host
      modifies file`jobs, host
      ensures (outcome, file.State()) == Steps(old(file.State()), start, 1)
    {
      var job := start;
      for i := 1 to |ORDER|
        invariant Steps(file.State(), job, i) == Steps(old(file.State()), start, 1) && job.id == start.id
      {
        if ORDER[i] in job.completed {
          continue;
        }
        job := job.(state := Running, phase := At(ORDER[i]));
        var ok := file.Put(job);
        if !ok {
          return Crashed;
        }
        var a := host.Perform(job.id, ORDER[i]);
        if a.Bad? {
          outcome := Put(job.(state := Failed, phase := At(ORDER[i]), message := Told(a.reason)));
          return;
        }
        if a.Dead? {
          return Crashed;
        }
        job := job.(completed := job.completed + {ORDER[i]});
      }
      var health := host.Ask();
      match health
      case Good =>
        outcome := Put(job.(completed := job.completed + {Health}, state := Succeeded, phase := Complete,
                            message := Provisioned));
      case Bad(reason) => outcome := Put(job.(state := Failed, phase := At(Health), message := Told(reason)));
      case Dead(_) => outcome := Crashed;
    }
  }
}
