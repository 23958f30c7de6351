// How a provisioning run ends (bottle-agent/internal/lifecycle/lifecycle.go:107-189), told from the
// request, the job on file, the probes and the script of the host's answers: the calls are counted.
module ProvisioningEndings {
  import opened Prelude
  import opened Machine
  import opened FileJobs
  import opened Provisioning

  // ---- The preflight ----

  /** A host that the workflow accepts. */
  predicate Fit(p: Probes)
  {
    p.architecture == "arm64" && p.bookworm && p.storageMB >= 2048 && p.eth0 && p.radios >= 1 && p.gps
  }

  /** What a complaint says of a host. */
  predicate Holds(u: Unfitness, p: Probes)
  {
    match u
    case Architecture(found) => p.architecture == found && found != "arm64"
    case NotBookworm => !p.bookworm
    case LowStorage => p.storageMB < 2048
    case NoEthernet => !p.eth0
    case NoRadio => p.radios == 0
    case NoGPS => !p.gps
  }

  function Rank(u: Unfitness): nat
  {
    match u
    case Architecture(_) => 0 case NotBookworm => 1 case LowStorage => 2
    case NoEthernet => 3 case NoRadio => 4 case NoGPS => 5
  }

  /** The preflight passes exactly a fit host, and complains truly, of the first thing wrong. */
  lemma PreflightTells(p: Probes)
    ensures Objection(p).None? <==> Fit(p)
    ensures forall u :: Objection(p) == Some(u) <==> Holds(u, p) && forall v :: Rank(v) < Rank(u) ==> !Holds(v, p)
  {
    if Objection(p).Some? {
      var first := Objection(p).value;
      assert Holds(first, p);
      forall v | Rank(v) < Rank(first) ensures !Holds(v, p) { }
      forall u | Holds(u, p) && (forall v :: Rank(v) < Rank(u) ==> !Holds(v, p)) ensures u == first {
        assert Rank(u) == Rank(first);
      }
    }
  }

  /** The protected files that a run finds, in the order of the two paths. */
  lemma ChangedTells(p: Probes)
    ensures Changed(p, PROTECTED) ==
            (if "/etc/kismet/kismet.conf" in p.configs then ["/etc/kismet/kismet.conf"] else [])
            + (if "/etc/bottle-agent/config.yaml" in p.configs then ["/etc/bottle-agent/config.yaml"] else [])
  {
    assert PROTECTED[..1][..0] == [] && PROTECTED[..1][0] == PROTECTED[0];
    assert Changed(p, PROTECTED) ==
           Changed(p, PROTECTED[..1]) + (if PROTECTED[1] in p.configs then [PROTECTED[1]] else []);
    assert Changed(p, PROTECTED[..1]) == Changed(p, []) + (if PROTECTED[0] in p.configs then [PROTECTED[0]] else []);
  }

  // ---- Counting the calls ----

  /** The calls of the operations from the i-th up to the k-th: seven of a Put and its own for each
      that is still to be done. */
  function Calls(completed: set<Checkpoint>, i: nat, k: nat): nat
    requires i <= k <= |ORDER|
    decreases k - i
  {
    if i == k then 0 else (if ORDER[i] in completed then 0 else 8) + Calls(completed, i + 1, k)
  }

  /** The checkpoints after those operations. */
  function Through(completed: set<Checkpoint>, i: nat, k: nat): set<Checkpoint>
    requires i <= k <= |ORDER|
    decreases k - i
  {
    if i == k then completed else Through(completed + {ORDER[i]}, i + 1, k)
  }

  function PointOf(k: nat): Checkpoint
    requires k <= |ORDER|
  {
    if k < |ORDER| then ORDER[k] else Health
  }

  /** How many calls come before the k-th operation itself, or before the health check. */
  function CallsBefore(completed: set<Checkpoint>, i: nat, k: nat): nat
    requires i <= k <= |ORDER|
  {
    Calls(completed, i, k) + (if k < |ORDER| then 7 else 0)
  }

  /** The first call that is refused is the k-th operation, or the health check, and the Put that
      reports it goes through. */
  predicate RefusedAt(completed: set<Checkpoint>, i: nat, k: nat, x: Script)
    requires i <= k <= |ORDER|
  {
    var n := CallsBefore(completed, i, k);
    && (k < |ORDER| ==> ORDER[k] !in completed)
    && GoodFor(x, n) && Head(Drop(x, n)).Bad? && GoodFor(Drop(x, n + 1), 7)
  }

  function ReasonAt(completed: set<Checkpoint>, i: nat, k: nat, x: Script): string
    requires i <= k <= |ORDER| && RefusedAt(completed, i, k, x)
  {
    Head(Drop(x, CallsBefore(completed, i, k))).reason
  }

  lemma {:induction false} CallsFrame(c: set<Checkpoint>, op: nat, i: nat, k: nat)
    requires op < i <= k <= |ORDER|
    ensures Calls(c + {ORDER[op]}, i, k) == Calls(c, i, k)
    decreases k - i
  {
    if i < k {
      CallsFrame(c, op, i + 1, k);
    }
  }

  /** Past an operation that is already done, nothing was called. */
  lemma RefusedSkip(c: set<Checkpoint>, i: nat, k: nat, x: Script)
    requires i < k <= |ORDER| && ORDER[i] in c
    ensures CallsBefore(c, i, k) == CallsBefore(c, i + 1, k)
    ensures RefusedAt(c, i, k, x) <==> RefusedAt(c, i + 1, k, x)
    ensures Through(c, i, k) == Through(c, i + 1, k)
  {
    assert c + {ORDER[i]} == c;
  }

  /** Past one that was still to be done, eight calls were. */
  lemma RefusedPast(c: set<Checkpoint>, i: nat, k: nat, x: Script)
    requires i < k <= |ORDER| && ORDER[i] !in c
    ensures CallsBefore(c, i, k) == 8 + CallsBefore(c + {ORDER[i]}, i + 1, k)
    ensures RefusedAt(c, i, k, x) <==> GoodFor(x, 8) && RefusedAt(c + {ORDER[i]}, i + 1, k, Drop(x, 8))
    ensures RefusedAt(c, i, k, x) ==>
              ReasonAt(c, i, k, x) == ReasonAt(c + {ORDER[i]}, i + 1, k, Drop(x, 8))
  {
    CallsFrame(c, i, i + 1, k);
    var n := CallsBefore(c + {ORDER[i]}, i + 1, k);
    GoodForSplit(x, 8, n);
    GoodForSplit(x, 8, n + 1);
    assert k < |ORDER| ==> (ORDER[k] in c <==> ORDER[k] in c + {ORDER[i]});
    hide GoodFor, Drop, Calls;
  }

  // ---- The steps ----

  /** A pending operation whose Put and own call are done. */
  lemma StepDone(s: Store, job: Job, i: nat) returns (s2: Store, job2: Job)
    requires i < |ORDER| && ORDER[i] !in job.completed && GoodFor(s.w.script, 8)
    ensures Steps(s, job, i) == Steps(s2, job2, i + 1)
    ensures job2 == job.(state := Running, phase := At(ORDER[i]), completed := job.completed + {ORDER[i]})
    ensures s2.w.script == Drop(s.w.script, 8) && s2.jobs == s.jobs[job.id := job2.(completed := job.completed)]
    ensures InStep(s) ==> InStep(s2)
  {
    GoodForSplit(s.w.script, 7, 1);
    var job1 := job.(state := Running, phase := At(ORDER[i]));
    FlushAtomic(s.w, s.jobs[job.id := job1]);
    var s1 := Replaced(s, job1).1;
    assert Drop(s1.w.script, 1) == Tail(s1.w.script);
    hide Flush, Lands;
    s2 := Operate(s1, job.id, ORDER[i]).1;
    job2 := job1.(completed := job1.completed + {ORDER[i]});
  }

  /** The job that a run ends with, as it returns it and as every later process finds it. */
  predicate Ended(s: Store, r: (Outcome, Store), job: Job)
  {
    && r.0 == Finished(job) && r.1.jobs == s.jobs[job.id := job]
    && (InStep(s) ==> InStep(r.1))
  }

  lemma ConcludeEnds(s: Store, job: Job)
    ensures if GoodFor(s.w.script, 7) then Ended(s, Conclude(s, job), job) else Conclude(s, job).0.Crashed?
  {
    FlushAtomic(s.w, s.jobs[job.id := job]);
  }

  function Done(job: Job, i: nat): Job
    requires i <= |ORDER|
  {
    job.(completed := Through(job.completed, i, |ORDER|) + {Health}, state := Succeeded, phase := Complete,
         message := Provisioned)
  }

  function Refused(job: Job, i: nat, k: nat, x: Script): Job
    requires i <= k <= |ORDER| && RefusedAt(job.completed, i, k, x)
  {
    job.(completed := Through(job.completed, i, k), state := Failed, phase := At(PointOf(k)),
         message := Told(ReasonAt(job.completed, i, k, x)))
  }

  /** The calls of all steps and the health check, and of the Put that reports it. */
  function AllCalls(completed: set<Checkpoint>, i: nat): nat
    requires i <= |ORDER|
  {
    Calls(completed, i, |ORDER|) + 8
  }

  lemma AllCallsPast(c: set<Checkpoint>, i: nat)
    requires i < |ORDER| && ORDER[i] !in c
    ensures AllCalls(c, i) == 8 + AllCalls(c + {ORDER[i]}, i + 1)
  {
    CallsFrame(c, i, i + 1, |ORDER|);
  }

  /** When every call is done, the job succeeds. */
  lemma {:induction false} StepsSucceed(s: Store, job: Job, i: nat)
    requires i <= |ORDER| && GoodFor(s.w.script, AllCalls(job.completed, i))
    ensures Ended(s, Steps(s, job, i), Done(job, i))
    decreases |ORDER| - i
  {
    if i == |ORDER| {
      var s1 := s.(w := Asked(s.w));
      ConcludeEnds(s1, Done(job, i));
      hide Conclude;
    } else if ORDER[i] in job.completed {
      assert job.completed + {ORDER[i]} == job.completed;
      StepsSucceed(s, job, i + 1);
    } else {
      AllCallsPast(job.completed, i);
      hide Steps, AllCalls, Ended;
      GoodForSplit(s.w.script, 8, AllCalls(job.completed + {ORDER[i]}, i + 1));
      var s2, job2 := StepDone(s, job, i);
      StepsSucceed(s2, job2, i + 1);
      EndedAfter(s, s2, job.id, Steps(s, job, i), Done(job, i));
    }
  }

  lemma EndedAfter(s: Store, s2: Store, id: string, r: (Outcome, Store), job: Job)
    requires Ended(s2, r, job) && job.id == id && (InStep(s) ==> InStep(s2))
    requires s2.jobs - {id} == s.jobs - {id}
    ensures Ended(s, r, job)
  {
    assert s2.jobs[id := job] == s.jobs[id := job] by {
      assert forall k :: k in s2.jobs && k != id ==> k in s2.jobs - {id};
      assert forall k :: k in s.jobs && k != id ==> k in s.jobs - {id};
      assert forall k :: k in s2.jobs && k != id ==> s2.jobs[k] == (s2.jobs - {id})[k];
      assert forall k :: k in s.jobs && k != id ==> s.jobs[k] == (s.jobs - {id})[k];
    }
  }

  /** When a call is refused, the job fails there, for that reason. */
  lemma {:induction false} StepsRefused(s: Store, job: Job, i: nat, k: nat)
    requires i <= k <= |ORDER| && RefusedAt(job.completed, i, k, s.w.script)
    ensures Ended(s, Steps(s, job, i), Refused(job, i, k, s.w.script))
    decreases |ORDER| - i
  {
    var x := s.w.script;
    if i == k {
      RefusedHere(s, job, i);
    } else if ORDER[i] in job.completed {
      RefusedSkip(job.completed, i, k, x);
      StepsRefused(s, job, i + 1, k);
    } else {
      RefusedPast(job.completed, i, k, x);
      hide Steps, RefusedAt, ReasonAt, Ended;
      var s2, job2 := StepDone(s, job, i);
      StepsRefused(s2, job2, i + 1, k);
      EndedAfter(s, s2, job.id, Steps(s, job, i), Refused(job, i, k, x));
    }
  }

  lemma RefusedHere(s: Store, job: Job, i: nat)
    requires i <= |ORDER| && RefusedAt(job.completed, i, i, s.w.script)
    ensures Ended(s, Steps(s, job, i), Refused(job, i, i, s.w.script))
  {
    var x := s.w.script;
    if i == |ORDER| {
      assert Drop(x, 1) == Tail(x);
      ConcludeEnds(s.(w := Asked(s.w)), Refused(job, i, i, x));
      hide Conclude;
    } else {
      var job1 := job.(state := Running, phase := At(ORDER[i]));
      FlushAtomic(s.w, s.jobs[job.id := job1]);
      var s1 := Replaced(s, job1).1;
      GoodForSplit(x, 7, 1);
      assert Drop(s1.w.script, 1) == Tail(s1.w.script);
      var s2 := Operate(s1, job.id, ORDER[i]).1;
      assert CallsBefore(job.completed, i, i) == 7 && s2.w.script == Drop(x, 8);
      assert Steps(s, job, i) == OperateFrom(s1, job1, i);
      assert OperateFrom(s1, job1, i) == Fail(s2, job1, At(ORDER[i]), Told(NextAnswer(s1.w).reason));
      assert job1.(state := Failed, message := Told(NextAnswer(s1.w).reason)) == Refused(job, i, i, x);
      ConcludeEnds(s2, Refused(job, i, i, x));
      hide Conclude, Flush, Lands;
      EndedAfter(s, s2, job.id, Steps(s, job, i), Refused(job, i, i, x));
    }
  }

  /** There is no other way for the steps to return. */
  lemma {:induction false} StepsReturn(s: Store, job: Job, i: nat)
    requires i <= |ORDER| && Steps(s, job, i).0.Finished?
    ensures GoodFor(s.w.script, AllCalls(job.completed, i))
            || exists k :: i <= k <= |ORDER| && RefusedAt(job.completed, i, k, s.w.script)
    decreases |ORDER| - i
  {
    var x, c := s.w.script, job.completed;
    if i == |ORDER| {
      HealthReturns(s, job);
    } else if ORDER[i] in c {
      assert c + {ORDER[i]} == c;
      StepsReturn(s, job, i + 1);
      if !GoodFor(x, AllCalls(c, i + 1)) {
        var k :| i + 1 <= k <= |ORDER| && RefusedAt(c, i + 1, k, x);
        RefusedSkip(c, i, k, x);
      }
    } else {
      StepReturns(s, job, i);
      if !RefusedAt(c, i, i, x) {
        hide Steps, RefusedAt, AllCalls;
        AllCallsPast(c, i);
        var s2, job2 := StepDone(s, job, i);
        StepsReturn(s2, job2, i + 1);
        if GoodFor(s2.w.script, AllCalls(job2.completed, i + 1)) {
          GoodForSplit(x, 8, AllCalls(job2.completed, i + 1));
        } else {
          var k :| i + 1 <= k <= |ORDER| && RefusedAt(job2.completed, i + 1, k, s2.w.script);
          RefusedPast(c, i, k, x);
        }
      }
    }
  }

  lemma HealthReturns(s: Store, job: Job)
    requires CheckHealth(s, job).0.Finished?
    ensures GoodFor(s.w.script, AllCalls(job.completed, |ORDER|))
            || RefusedAt(job.completed, |ORDER|, |ORDER|, s.w.script)
  {
    var s1 := s.(w := Asked(s.w));
    assert Drop(s.w.script, 1) == Tail(s.w.script);
    forall j ensures Conclude(s1, j).0.Finished? ==> GoodFor(s1.w.script, 7) { ConcludeEnds(s1, j); }
    hide Conclude;
  }

  lemma StepReturns(s: Store, job: Job, i: nat)
    requires i < |ORDER| && ORDER[i] !in job.completed && Steps(s, job, i).0.Finished?
    ensures GoodFor(s.w.script, 8) || RefusedAt(job.completed, i, i, s.w.script)
  {
    var x := s.w.script;
    var job1 := job.(state := Running, phase := At(ORDER[i]));
    FlushAtomic(s.w, s.jobs[job.id := job1]);
    var s1 := Replaced(s, job1).1;
    GoodForSplit(x, 7, 1);
    assert Drop(s1.w.script, 1) == Tail(s1.w.script);
    var s2 := Operate(s1, job.id, ORDER[i]).1;
    forall j ensures Conclude(s2, j).0.Finished? ==> GoodFor(s2.w.script, 7) { ConcludeEnds(s2, j); }
    hide Conclude, Flush, Lands;
  }

  // ---- The whole run ----

  function JobOf(s: Store, id: string): Job { if id in s.jobs then s.jobs[id] else NewJob(id) }

  /** Whether a run may touch the host's configuration: the backup is done, it need not ask, or
      neither protected file is there. */
  predicate MayChange(job: Job, confirm: bool, p: Probes)
  {
    || Backup in job.completed || confirm
    || ("/etc/kismet/kismet.conf" !in p.configs && "/etc/bottle-agent/config.yaml" !in p.configs)
  }

  /** Whether a run comes to its operations. */
  predicate Starts(s: Store, id: string, confirm: bool, p: Probes)
  {
    id != "" && !JobOf(s, id).state.Succeeded? && Fit(p) && MayChange(JobOf(s, id), confirm, p)
  }

  /** The calls of a run that succeeds: the backup's own, without a Put before it, if it is still to
      be done, and those of the steps. */
  function RunCalls(c: set<Checkpoint>): nat
  {
    if Backup in c then AllCalls(c, 1) else 1 + AllCalls(c + {Backup}, 1)
  }

  /** The first refused call of a run is the k-th operation, or the health check, and its report
      goes through. */
  predicate RunRefusedAt(c: set<Checkpoint>, k: nat, x: Script)
    requires k <= |ORDER|
  {
    if Backup in c then k > 0 && RefusedAt(c, 1, k, x)
    else if k == 0 then Head(x).Bad? && GoodFor(Tail(x), 7)
    else Head(x).Good? && RefusedAt(c + {Backup}, 1, k, Tail(x))
  }

  function RunReason(c: set<Checkpoint>, k: nat, x: Script): string
    requires k <= |ORDER| && RunRefusedAt(c, k, x)
  {
    if Backup in c then ReasonAt(c, 1, k, x)
    else if k == 0 then Head(x).reason else ReasonAt(c + {Backup}, 1, k, Tail(x))
  }

  function Upto(k: nat): set<Checkpoint>
    requires k <= |ORDER|
  {
    set j | 0 <= j < k :: ORDER[j]
  }

  lemma {:induction false} ThroughIs(c: set<Checkpoint>, i: nat, k: nat)
    requires i <= k <= |ORDER|
    ensures Through(c, i, k) == c + set j | i <= j < k :: ORDER[j]
    decreases k - i
  {
    if i < k {
      ThroughIs(c + {ORDER[i]}, i + 1, k);
    }
  }

  lemma ThroughAll(c: set<Checkpoint>, k: nat)
    requires 1 <= k <= |ORDER| && Backup in c
    ensures Through(c, 1, k) == c + Upto(k)
    ensures k == |ORDER| ==> Through(c, 1, k) + {Health} == c + {Backup, Packages, Configure, Services, Health}
  {
    ThroughIs(c, 1, k);
    assert Upto(k) == {ORDER[0]} + set j | 1 <= j < k :: ORDER[j];
    if k == |ORDER| {
      assert Upto(4) == {ORDER[0], ORDER[1], ORDER[2], ORDER[3]};
    }
  }

  /** A run that comes to its operations, as its steps. */
  lemma RunSteps(s: Store, id: string, confirm: bool, p: Probes)
    requires Starts(s, id, confirm, p)
    ensures RunJob(s, id, confirm, p) ==
            if Backup in JobOf(s, id).completed then Steps(s, JobOf(s, id), 1) else OperateFrom(s, JobOf(s, id), 0)
  {
    PreflightTells(p);
    ChangedTells(p);
    hide Steps, OperateFrom, Conclude, Objection, Changed, Fit;
  }

  /** With every call done the job succeeds, all checkpoints recorded. */
  lemma RunSucceeds(s: Store, id: string, confirm: bool, p: Probes)
    requires Starts(s, id, confirm, p) && JobOf(s, id).id == id && GoodFor(s.w.script, RunCalls(JobOf(s, id).completed))
    ensures var job := JobOf(s, id);
            Ended(s, RunJob(s, id, confirm, p),
                  job.(completed := job.completed + {Backup, Packages, Configure, Services, Health},
                       state := Succeeded, phase := Complete, message := Provisioned))
  {
    var job, x := JobOf(s, id), s.w.script;
    RunSteps(s, id, confirm, p);
    hide Steps, AllCalls, RunJob;
    if Backup in job.completed {
      StepsSucceed(s, job, 1);
      ThroughAll(job.completed, |ORDER|);
    } else {
      var job1 := job.(completed := job.completed + {Backup});
      GoodForSplit(x, 1, AllCalls(job1.completed, 1));
      assert Drop(x, 1) == Tail(x);
      var s1 := Operate(s, id, Backup).1;
      StepsSucceed(s1, job1, 1);
      ThroughAll(job1.completed, |ORDER|);
      assert (job.completed + {Backup}) + {Backup, Packages, Configure, Services, Health} ==
             job.completed + {Backup, Packages, Configure, Services, Health};
      EndedAfter(s, s1, id, Steps(s1, job1, 1), Done(job1, 1));
    }
  }

  /** With a call refused the job fails there, for that reason, with the checkpoints before it. */
  lemma RunFails(s: Store, id: string, confirm: bool, p: Probes, k: nat)
    requires Starts(s, id, confirm, p) && JobOf(s, id).id == id && k <= |ORDER|
    requires RunRefusedAt(JobOf(s, id).completed, k, s.w.script)
    ensures var job := JobOf(s, id);
            Ended(s, RunJob(s, id, confirm, p),
                  job.(completed := job.completed + Upto(k), state := Failed, phase := At(PointOf(k)),
                       message := Told(RunReason(job.completed, k, s.w.script))))
  {
    var job, x := JobOf(s, id), s.w.script;
    RunSteps(s, id, confirm, p);
    hide Steps, RefusedAt, ReasonAt, RunJob;
    if Backup in job.completed {
      StepsRefused(s, job, 1, k);
      ThroughAll(job.completed, k);
    } else if k == 0 {
      assert job.completed + Upto(0) == job.completed;
      ConcludeEnds(Operate(s, id, Backup).1,
                   job.(state := Failed, phase := At(Backup), message := Told(Head(x).reason)));
    } else {
      var job1 := job.(completed := job.completed + {Backup});
      var s1 := Operate(s, id, Backup).1;
      StepsRefused(s1, job1, 1, k);
      ThroughAll(job1.completed, k);
      assert Backup == ORDER[0] && Backup in Upto(k);
      assert job1.completed + Upto(k) == job.completed + Upto(k);
      EndedAfter(s, s1, id, Steps(s1, job1, 1), Refused(job1, 1, k, Tail(x)));
    }
  }

  /** A run that comes to its operations returns in no other way. */
  lemma RunReturns(s: Store, id: string, confirm: bool, p: Probes)
    requires Starts(s, id, confirm, p) && RunJob(s, id, confirm, p).0.Finished?
    ensures var c := JobOf(s, id).completed;
            GoodFor(s.w.script, RunCalls(c)) || exists k :: 0 <= k <= |ORDER| && RunRefusedAt(c, k, s.w.script)
  {
    var job, x := JobOf(s, id), s.w.script;
    RunSteps(s, id, confirm, p);
    hide Steps, RefusedAt, RunJob, AllCalls;
    if Backup in job.completed {
      StepsReturn(s, job, 1);
      if !GoodFor(x, AllCalls(job.completed, 1)) {
        var k :| 1 <= k <= |ORDER| && RefusedAt(job.completed, 1, k, x);
        assert RunRefusedAt(job.completed, k, x);
      }
    } else {
      var job1, s1 := job.(completed := job.completed + {Backup}), Operate(s, job.id, Backup).1;
      if NextAnswer(s.w).Good? {
        StepsReturn(s1, job1, 1);
        if GoodFor(Tail(x), AllCalls(job1.completed, 1)) {
          GoodForSplit(x, 1, AllCalls(job1.completed, 1));
          assert Drop(x, 1) == Tail(x);
        } else {
          var k :| 1 <= k <= |ORDER| && RefusedAt(job1.completed, 1, k, Tail(x));
          assert RunRefusedAt(job.completed, k, x);
        }
      } else {
        forall j ensures Conclude(s1, j).0.Finished? ==> GoodFor(s1.w.script, 7) { ConcludeEnds(s1, j); }
        hide Conclude;
        assert RunRefusedAt(job.completed, 0, x);
      }
    }
  }

  /** A job that had not succeeded ends Succeeded if and only if the host is fit, nothing has to be
      asked, and every call of the pending operations, of the Puts and of the health check is done. */
  lemma SucceedsIff(s: Store, id: string, confirm: bool, p: Probes)
    requires id != "" && JobOf(s, id).id == id && !JobOf(s, id).state.Succeeded?
    ensures var o := RunJob(s, id, confirm, p).0;
            o.Finished? && o.job.state.Succeeded? <==>
              Fit(p) && MayChange(JobOf(s, id), confirm, p) && GoodFor(s.w.script, RunCalls(JobOf(s, id).completed))
  {
    var job, x, o := JobOf(s, id), s.w.script, RunJob(s, id, confirm, p).0;
    if Fit(p) && MayChange(job, confirm, p) {
      hide RunJob, RunRefusedAt, RunCalls;
      if GoodFor(x, RunCalls(job.completed)) {
        RunSucceeds(s, id, confirm, p);
      } else if o.Finished? {
        RunReturns(s, id, confirm, p);
        var k :| 0 <= k <= |ORDER| && RunRefusedAt(job.completed, k, x);
        RunFails(s, id, confirm, p, k);
      }
    } else {
      StopsBefore(s, id, confirm, p);
    }
  }

  /** A run on an unfit host, or one that has to ask, stops before it touches anything, and says
      so: the job fails in the preflight with the first true complaint, or waits for input with the
      protected files that are there. */
  lemma StopsBefore(s: Store, id: string, confirm: bool, p: Probes)
    requires id != "" && JobOf(s, id).id == id && !JobOf(s, id).state.Succeeded?
    requires !(Fit(p) && MayChange(JobOf(s, id), confirm, p))
    ensures var r, job := RunJob(s, id, confirm, p), JobOf(s, id);
            && r.1.w.trace == s.w.trace
            && (!GoodFor(s.w.script, 7) ==> r.0.Crashed?)
            && (GoodFor(s.w.script, 7) && Fit(p) ==>
                  Ended(s, r, job.(state := NeedsInput, phase := ConfirmConfig, message := ConfirmFirst,
                                   changedPaths := Changed(p, PROTECTED))))
            && (GoodFor(s.w.script, 7) && !Fit(p) ==>
                  && r.0.Finished? && r.0.job.message.Unfit?
                  && Holds(r.0.job.message.why, p)
                  && (forall v :: Rank(v) < Rank(r.0.job.message.why) ==> !Holds(v, p))
                  && Ended(s, r, job.(state := Failed, phase := Preflight, message := r.0.job.message)))
  {
    PreflightTells(p);
    ChangedTells(p);
    var job := JobOf(s, id);
    forall j: Job
      ensures if GoodFor(s.w.script, 7) then Ended(s, Conclude(s, j), j) else Conclude(s, j).0.Crashed?
    {
      ConcludeEnds(s, j);
    }
    forall j ensures Conclude(s, j).1.w.trace == s.w.trace { FlushAtomic(s.w, s.jobs[j.id := j]); }
    hide Conclude, Steps, OperateFrom, Objection, Changed, Fit, Holds, Ended;
  }

  /** A request without an ID is refused, and one for a job that has succeeded is answered with it;
      neither does anything else. A new job starts from nothing. */
  lemma NothingToRun(s: Store, id: string, confirm: bool, p: Probes)
    ensures id == "" ==> RunJob(s, id, confirm, p) == (NoID, s)
    ensures id != "" && JobOf(s, id).state.Succeeded? ==> RunJob(s, id, confirm, p) == (Finished(JobOf(s, id)), s)
    ensures id != "" ==> !RunJob(s, id, confirm, p).0.NoID?
    ensures id !in s.jobs ==> JobOf(s, id) == Job(id, "provision", Queued, Unset, Blank, [], {})
  {
    var job := JobOf(s, id);
    forall j ensures !Conclude(s, j).0.NoID? { }
    if id != "" && !job.state.Succeeded? {
      StepsHaveID(s, job, 1);
      OperateHasID(s, job, 0);
    }
    hide Conclude, Steps, OperateFrom, Objection, Changed;
  }

  lemma {:induction false} StepsHaveID(s: Store, job: Job, i: nat)
    requires i <= |ORDER|
    ensures !Steps(s, job, i).0.NoID?
    decreases |ORDER| - i, 1
  {
    hide Replaced, OperateFrom;
    if i < |ORDER| {
      if ORDER[i] in job.completed {
        StepsHaveID(s, job, i + 1);
      } else {
        var job1 := job.(state := Running, phase := At(ORDER[i]));
        OperateHasID(Replaced(s, job1).1, job1, i);
      }
    }
  }

  lemma {:induction false} OperateHasID(s: Store, job: Job, i: nat)
    requires i < |ORDER|
    ensures !OperateFrom(s, job, i).0.NoID?
    decreases |ORDER| - i, 0
  {
    hide Replaced, Steps;
    StepsHaveID(Operate(s, job.id, ORDER[i]).1, job.(completed := job.completed + {ORDER[i]}), i + 1);
  }
}
