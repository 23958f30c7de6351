// How an update ends (bottle-agent/internal/lifecycle/lifecycle.go:208-257): what is on file for it
// afterwards, and which outcome it returns, told from the request and the script by counting calls.
module UpdateEndings {
  import opened Prelude
  import opened Machine
  import opened Updating
  import FileJobs
  import Releases

  // ---- What is on file ----

  /** A run that returns has put the very job it returns, for this and every later process; the
      records of other jobs are as they were, on file too, however the run ends. */
  predicate Recorded(s: FileJobs.Store, r: (Outcome, FileJobs.Store), id: string)
  {
    && (r.0.Returned? ==>
          r.0.job.id == id && id in r.1.jobs && r.1.jobs[id] == r.0.job && FileJobs.InStep(r.1))
    && r.1.jobs - {id} == s.jobs - {id}
    && FileJobs.Load(r.1.w.live).Some? && FileJobs.Load(r.1.w.live).value - {id} == s.jobs - {id}
  }

  lemma ConcludeRecords(s: FileJobs.Store, job: Job, error: Option<string>)
    requires FileJobs.InStep(s)
    ensures Recorded(s, Conclude(s, job, error), job.id)
  {
    FileJobs.PutRefinesMap(s, job);
    assert s.jobs[job.id := job] - {job.id} == s.jobs - {job.id};
  }

  lemma RollBackRecords(c: Setting, s: FileJobs.Store, job: Job, previous: string, reason: string)
    requires FileJobs.InStep(s)
    ensures Recorded(s, RollBack(c, s, job, previous, reason), job.id)
  {
    hide Conclude, Releases.Switched, Releases.Join;
    Releases.SwitchAtomic(s.w, c.releases, previous);
    var s1 := s.(w := Releases.Switched(s.w, c.releases, previous).1);
    assert FileJobs.InStep(s1);
    hide Recorded, FileJobs.InStep;
    forall j: Job, error | j.id == job.id ensures Recorded(s, Conclude(s1, j, error), job.id) {
      ConcludeRecords(s1, j, error);
      RecordedSame(s, s1, Conclude(s1, j, error), job.id);
    }
  }

  lemma RecordedSame(s: FileJobs.Store, s1: FileJobs.Store, r: (Outcome, FileJobs.Store), id: string)
    requires s1.jobs == s.jobs && Recorded(s1, r, id)
    ensures Recorded(s, r, id)
  {
  }

  lemma HealthRecords(c: Setting, s: FileJobs.Store, job: Job, previous: string)
    requires FileJobs.InStep(s)
    ensures Recorded(s, HealthOrRollback(c, s, job, previous), job.id)
  {
    var s1 := s.(w := Performed(s.w, job.id, Health));
    forall j: Job, error | j.id == job.id ensures Recorded(s, Conclude(s1, j, error), job.id) {
      ConcludeRecords(s1, j, error);
    }
    forall reason ensures Recorded(s, RollBack(c, s1, job, previous, reason), job.id) {
      RollBackRecords(c, s1, job, previous, reason);
    }
    hide Conclude, RollBack;
  }

  lemma ActivationRecords(c: Setting, s: FileJobs.Store, job: Job, version: string, previous: string)
    requires FileJobs.InStep(s)
    ensures Recorded(s, Activation(c, s, job, version, previous), job.id)
  {
    Releases.SwitchAtomic(s.w, c.releases, version);
    var s1 := s.(w := Releases.Switched(s.w, c.releases, version).1);
    forall j: Job, error | j.id == job.id ensures Recorded(s, Conclude(s1, j, error), job.id) {
      ConcludeRecords(s1, j, error);
    }
    HealthRecords(c, s1, job, previous);
    hide Conclude, HealthOrRollback, Releases.Switched, Releases.Join;
  }

  lemma InstallationRecords(c: Setting, s: FileJobs.Store, job: Job, version: string)
    requires FileJobs.InStep(s)
    ensures Recorded(s, Installation(c, s, job, version), job.id)
  {
    var s1 := s.(w := Performed(s.w, job.id, Backup));
    Releases.StagedTree(s1.w, c.releases, version, c.fetched);
    var s2 := s1.(w := Releases.Staged(s1.w, c.releases, version, c.fetched).1);
    forall j: Job, error | j.id == job.id
      ensures Recorded(s, Conclude(s1, j, error), job.id) && Recorded(s, Conclude(s2, j, error), job.id) {
      ConcludeRecords(s1, j, error);
      ConcludeRecords(s2, j, error);
    }
    ActivationRecords(c, s2, job, version, Releases.Active(s1.w.tree));
    hide Conclude, Activation, Releases.Staged, Releases.Join, Releases.Active;
  }

  lemma TransferRecords(c: Setting, s: FileJobs.Store, job: Job, m: Manifest)
    requires FileJobs.InStep(s)
    ensures Recorded(s, Transfer(c, s, job, m), job.id)
  {
    var s1 := s.(w := Asked(s.w));
    forall j: Job, error | j.id == job.id ensures Recorded(s, Conclude(s1, j, error), job.id) {
      ConcludeRecords(s1, j, error);
    }
    InstallationRecords(c, s1, job, m.version);
    hide Conclude, Installation;
  }

  /** So for every update on a store that is in step with its file. */
  lemma UpdateRecords(c: Setting, s: FileJobs.Store, id: string, m: Manifest)
    requires FileJobs.InStep(s) && (id in s.jobs ==> s.jobs[id].id == id)
    ensures Recorded(s, UpdateJob(c, s, id, m), id)
  {
    var job := NewJob(id);
    FileJobs.PutRefinesMap(s, job);
    assert s.jobs[id := job] - {id} == s.jobs - {id};
    var (ok, s1) := FileJobs.Replaced(s, job);
    if ok {
      forall j: Job, error | j.id == id ensures Recorded(s, Conclude(s1, j, error), id) {
        ConcludeRecords(s1, j, error);
      }
      TransferRecords(c, s1, job, m);
    }
    hide Conclude, Transfer, FileJobs.Replaced, Verified;
  }

  /** A request that is not complete is refused, and nothing else is done; one whose ID is on file
      as succeeded is answered from there, and nothing else is done. */
  lemma NothingToDo(c: Setting, s: FileJobs.Store, id: string, m: Manifest)
    ensures UpdateJob(c, s, id, m).0.Incomplete? <==> id == "" || m.version == "" || m.url == "" || m.sha256 == ""
    ensures UpdateJob(c, s, id, m).0.Incomplete? ==> UpdateJob(c, s, id, m).1 == s
    ensures id != "" && m.version != "" && m.url != "" && m.sha256 != ""
            && id in s.jobs && s.jobs[id].state.Succeeded? ==>
              UpdateJob(c, s, id, m) == (Returned(s.jobs[id], None), s)
  {
    var job := NewJob(id);
    var s1 := FileJobs.Replaced(s, job).1;
    forall j, e ensures !Conclude(s1, j, e).0.Incomplete? { }
    TransferComplete(c, s1, job, m);
    hide Conclude, Transfer, FileJobs.Replaced, Verified;
  }

  lemma TransferComplete(c: Setting, s: FileJobs.Store, job: Job, m: Manifest)
    ensures !Transfer(c, s, job, m).0.Incomplete?
  {
    hide FileJobs.Replaced, Releases.Staged, Releases.Switched, Releases.Join, Releases.Active, Releases.ReleaseFile;
  }

  /** Hence a second request with the ID of an update that returned Succeeded, whatever it asks for
      and in whatever process, returns that job and touches nothing: not the tree, the trace or
      the file. */
  lemma SecondRunIsNothing(c: Setting, s: FileJobs.Store, id: string, m: Manifest, c2: Setting, m2: Manifest, x: Script)
    requires FileJobs.InStep(s) && (id in s.jobs ==> s.jobs[id].id == id) && FilledIn(id, m2)
    requires var o := UpdateJob(c, s, id, m).0; o.Returned? && o.job.state.Succeeded?
    ensures var (o, s1) := UpdateJob(c, s, id, m);
            var again := FileJobs.Boot(s1.w.(script := x));
            UpdateJob(c2, again, id, m2) == (Returned(o.job, None), again)
  {
    hide UpdateJob;
    UpdateRecords(c, s, id, m);
    NothingToDo(c2, FileJobs.Boot(UpdateJob(c, s, id, m).1.w.(script := x)), id, m2);
  }

  // ---- Which outcome is returned ----

  /** What is returned when the report's seven calls are next. */
  function Report(x: Script, job: Job, error: Option<string>): Outcome
  {
    if GoodFor(x, 7) then Returned(job, error) else Crashed
  }

  function Failure(x: Script, job: Job, phase: Phase, reason: string): Outcome
  {
    Report(x, job.(state := Failed, phase := phase, message := Told(reason)), Some(reason))
  }

  lemma ConcludeEnding(s: FileJobs.Store, job: Job, error: Option<string>)
    ensures Conclude(s, job, error).0 == Report(s.w.script, job, error)
  {
    ConcludeTree(s, job, error);
  }

  /** From the roll back on; `back` says that the prior release is there. */
  function RollBackTable(y: Script, free: bool, back: bool, previous: string, reason: string, job: Job): Outcome
  {
    var text := "health check failed: " + reason + "; rollback failed: ";
    if !back then Failure(y, job, Rollback, text + ("release " + previous + " is not staged"))
    else match Releases.SwitchEnding(y, free)
      case Passes =>
        Report(Drop(y, 4), job.(state := Failed, phase := RolledBack, message := Reverted),
               Some("update rolled back after failed health check"))
      case Fails(n, e) => Failure(Drop(y, n), job, Rollback, text + e)
      case Dies => Crashed
  }

  lemma RollBackEnding(c: Setting, s: FileJobs.Store, job: Job, previous: string, reason: string)
    ensures RollBack(c, s, job, previous, reason).0 ==
            RollBackTable(s.w.script, s.w.tree.tmp.None?,
                          Releases.Exists(s.w.tree, Releases.Join(c.releases, previous)), previous, reason, job)
  {
    if Releases.Exists(s.w.tree, Releases.Join(c.releases, previous)) {
      Releases.SwitchEnds(s.w, c.releases, previous);
      hide Releases.Switched;
    }
    var s1 := s.(w := Releases.Switched(s.w, c.releases, previous).1);
    forall j, e ensures Conclude(s1, j, e).0 == Report(s1.w.script, j, e) { ConcludeEnding(s1, j, e); }
    hide Conclude, Releases.SwitchEnding, Releases.Join, Releases.Exists, GoodFor, Drop;
  }

  /** From the health check on. */
  function HealthTable(y: Script, back: bool, previous: string, job: Job): Outcome
  {
    match Head(y)
    case Good => Report(Drop(y, 1), job.(state := Succeeded, phase := Complete, message := Updated), None)
    case Bad(reason) => RollBackTable(Drop(y, 1), true, back, previous, reason, job)
    case Dead(_) => Crashed
  }

  lemma HealthEnding(c: Setting, s: FileJobs.Store, job: Job, previous: string)
    requires s.w.tree.tmp.None?
    ensures HealthOrRollback(c, s, job, previous).0 ==
            HealthTable(s.w.script, Releases.Exists(s.w.tree, Releases.Join(c.releases, previous)), previous, job)
  {
    assert Drop(s.w.script, 1) == Tail(s.w.script);
    var s1 := s.(w := Performed(s.w, job.id, Health));
    ConcludeEnding(s1, job.(state := Succeeded, phase := Complete, message := Updated), None);
    if NextAnswer(s.w).Bad? { RollBackEnding(c, s1, job, previous, NextAnswer(s.w).reason); }
    hide Conclude, RollBack, RollBackTable, Releases.Join, Releases.Exists, GoodFor, Drop;
  }

  /** From the activation on; `free` says that no temporary link was left behind. */
  function ActivationTable(y: Script, free: bool, back: bool, previous: string, job: Job): Outcome
  {
    match Releases.SwitchEnding(y, free)
    case Passes => HealthTable(Drop(y, 4), back, previous, job)
    case Fails(n, e) => Failure(Drop(y, n), job, Activate, e)
    case Dies => Crashed
  }

  lemma ActivationEnding(c: Setting, s: FileJobs.Store, job: Job, version: string, previous: string)
    requires Releases.Exists(s.w.tree, Releases.Join(c.releases, version))
    ensures Activation(c, s, job, version, previous).0 ==
            ActivationTable(s.w.script, s.w.tree.tmp.None?,
                            Releases.Exists(s.w.tree, Releases.Join(c.releases, previous)), previous, job)
  {
    Releases.SwitchEnds(s.w, c.releases, version);
    Releases.SwitchAtomic(s.w, c.releases, version);
    var s1 := s.(w := Releases.Switched(s.w, c.releases, version).1);
    forall j, e ensures Conclude(s1, j, e).0 == Report(s1.w.script, j, e) { ConcludeEnding(s1, j, e); }
    if s1.w.tree.tmp.None? { HealthEnding(c, s1, job, previous); }
    hide Conclude, HealthOrRollback, HealthTable, Releases.Switched, Releases.SwitchEnding, Releases.Join, GoodFor,
         Drop;
  }

  /** Whether the prior release is there when it comes to rolling back: it was, or the staging made
      its directory. */
  predicate PriorThere(c: Setting, m: Manifest, t: Tree)
  {
    var back, target := Releases.Join(c.releases, Releases.Active(t)), Releases.Join(c.releases, m.version);
    Releases.Exists(t, back) || back in Releases.Ancestors(target) || back == Releases.ReleaseFile(target)
  }

  /** From the backup on: one call, then the three of the staging. */
  function InstallationTable(y: Script, free: bool, back: bool, previous: string, job: Job): Outcome
  {
    if Releases.FirstRefused(y, 0) then Failure(Drop(y, 1), job, At(Backup), Head(y).reason)
    else if Releases.FirstRefused(y, 1) then Failure(Drop(y, 2), job, Stage, Head(Drop(y, 1)).reason)
    else if Releases.FirstRefused(y, 2) then Failure(Drop(y, 3), job, Stage, Head(Drop(y, 2)).reason)
    else if Releases.FirstRefused(y, 3) then Failure(Drop(y, 4), job, Stage, Head(Drop(y, 3)).reason)
    else if GoodFor(y, 4) then ActivationTable(Drop(y, 4), free, back, previous, job)
    else Crashed
  }

  /** The staging's refusals, counted from the backup. */
  lemma StagingShift(y: Script)
    requires Head(y).Good?
    ensures forall n :: 0 <= n < 3 ==> (Releases.FirstRefused(Tail(y), n) <==> Releases.FirstRefused(y, n + 1))
    ensures forall n :: 0 <= n < 4 ==> Drop(Tail(y), n) == Drop(y, n + 1)
    ensures GoodFor(Tail(y), 3) <==> GoodFor(y, 4)
    ensures !Releases.FirstRefused(y, 0)
  {
    assert Drop(y, 1) == Tail(y);
    forall n: nat ensures GoodFor(y, 1 + n) <==> GoodFor(Tail(y), n) { GoodForSplit(y, 1, n); }
    forall n: nat ensures Drop(y, 1 + n) == Drop(Tail(y), n) { GoodForSplit(y, 1, n); }
  }

  lemma BackupNotDone(y: Script)
    requires !Head(y).Good?
    ensures !GoodFor(y, 4) && (Releases.FirstRefused(y, 0) <==> Head(y).Bad?)
    ensures forall n :: n == 1 || n == 2 || n == 3 ==> !Releases.FirstRefused(y, n)
  {
    assert Drop(y, 0) == y;
  }

  lemma InstallationEnding(c: Setting, s: FileJobs.Store, job: Job, m: Manifest)
    ensures Installation(c, s, job, m.version).0 ==
            InstallationTable(s.w.script, s.w.tree.tmp.None?, PriorThere(c, m, s.w.tree),
                              Releases.Active(s.w.tree), job)
  {
    var y, s1 := s.w.script, s.(w := Performed(s.w, job.id, Backup));
    assert Drop(y, 1) == Tail(y);
    forall j, e ensures Conclude(s1, j, e).0 == Report(s1.w.script, j, e) { ConcludeEnding(s1, j, e); }
    if NextAnswer(s.w).Good? {
      StagingShift(y);
      StagingEnding(c, s1, job, m);
      hide Conclude, Fail, Failure, Activation, ActivationTable, Releases.Staged, Releases.Join, Releases.Active, Drop,
           PriorThere, Releases.FirstRefused, GoodFor;
      var x, o := Tail(y), Installation(c, s, job, m.version).0;
      forall n | 0 <= n < 3 && Releases.FirstRefused(x, n)
        ensures o == Failure(Drop(y, n + 2), job, Stage, Head(Drop(y, n + 1)).reason)
      {
        assert Drop(x, n) == Drop(y, n + 1) && Drop(x, n + 1) == Drop(y, n + 2);
      }
      assert GoodFor(y, 4) ==>
          o == ActivationTable(Drop(x, 3), s.w.tree.tmp.None?, PriorThere(c, m, s.w.tree),
                               Releases.Active(s.w.tree), job);
      assert Drop(x, 3) == Drop(y, 4);
      assert Releases.FirstRefused(y, 1) <==> Releases.FirstRefused(Tail(y), 0);
      assert Releases.FirstRefused(y, 2) <==> Releases.FirstRefused(Tail(y), 1);
      assert Releases.FirstRefused(y, 3) <==> Releases.FirstRefused(Tail(y), 2);
    } else {
      BackupNotDone(y);
      hide Conclude, Activation, ActivationTable, Releases.Staged, Releases.Active, Drop, PriorThere,
           Releases.FirstRefused, GoodFor;
    }
  }

  /** The staging and what follows. */
  lemma StagingEnding(c: Setting, s: FileJobs.Store, job: Job, m: Manifest)
    ensures var x, (r, w) := s.w.script, Releases.Staged(s.w, c.releases, m.version, c.fetched);
            && (r.Ok? <==> GoodFor(x, 3))
            && (r.Ok? ==>
                  Activation(c, s.(w := w), job, m.version, Releases.Active(s.w.tree)).0 ==
                  ActivationTable(Drop(x, 3), s.w.tree.tmp.None?, PriorThere(c, m, s.w.tree),
                                  Releases.Active(s.w.tree), job))
            && (r.Err? <==> Releases.FirstRefused(x, 0) || Releases.FirstRefused(x, 1) || Releases.FirstRefused(x, 2))
            && (forall n :: 0 <= n < 3 && Releases.FirstRefused(x, n) ==>
                  r == Releases.Err(Head(Drop(x, n)).reason)
                  && Fail(s.(w := w), job, Stage, Head(Drop(x, n)).reason).0 ==
                     Failure(Drop(x, n + 1), job, Stage, Head(Drop(x, n)).reason))
  {
    var (r, w) := Releases.Staged(s.w, c.releases, m.version, c.fetched);
    var s1 := s.(w := w);
    Releases.StagedTree(s.w, c.releases, m.version, c.fetched);
    Releases.StagedEnds(s.w, c.releases, m.version, c.fetched);
    forall j, e ensures Conclude(s1, j, e).0 == Report(s1.w.script, j, e) { ConcludeEnding(s1, j, e); }
    hide Releases.Staged, Releases.Join, Releases.Active, Releases.Ancestors, Releases.FirstRefused, Drop, GoodFor;
    if r.Ok? {
      ActivationEnding(c, s1, job, m.version, Releases.Active(s.w.tree));
    }
    hide Activation, ActivationTable, Conclude, Releases.ReleaseFile;
  }

  /** The whole run: seven calls of the record, the fetch, and the rest. */
  function UpdateTable(c: Setting, m: Manifest, x: Script, t: Tree, job: Job): Outcome
  {
    if !GoodFor(x, 7) then Crashed
    else if Verified(c, m).Some? then Failure(Drop(x, 7), job, VerifyManifest, Verified(c, m).value)
    else if Releases.FirstRefused(x, 7) then Failure(Drop(x, 8), job, Download, Head(Drop(x, 7)).reason)
    else if !GoodFor(x, 8) then Crashed
    else if c.digest(c.fetched) != m.sha256 then Failure(Drop(x, 8), job, VerifyDigest, "release digest mismatch")
    else InstallationTable(Drop(x, 8), t.tmp.None?, PriorThere(c, m, t), Releases.Active(t), job)
  }

  lemma Fetching(x: Script)
    ensures GoodFor(x, 8) <==> GoodFor(x, 7) && Head(Drop(x, 7)).Good?
    ensures Releases.FirstRefused(x, 7) <==> GoodFor(x, 7) && Head(Drop(x, 7)).Bad?
    ensures Tail(Drop(x, 7)) == Drop(x, 8)
  {
    GoodForSplit(x, 7, 1);
    assert Drop(Drop(x, 7), 1) == Tail(Drop(x, 7));
    hide Drop;
  }

  lemma UpdateEnding(c: Setting, s: FileJobs.Store, id: string, m: Manifest)
    requires FilledIn(id, m) && !(id in s.jobs && s.jobs[id].state.Succeeded?)
    ensures UpdateJob(c, s, id, m).0 ==
            UpdateTable(c, m, s.w.script, s.w.tree, Job(id, "update", Running, Unset, Blank, [], {}))
  {
    var job, x := NewJob(id), s.w.script;
    PutTree(s, job);
    var s1 := FileJobs.Replaced(s, job).1;
    var s2 := s1.(w := Asked(s1.w));
    forall j, e ensures Conclude(s1, j, e).0 == Report(s1.w.script, j, e) { ConcludeEnding(s1, j, e); }
    forall j, e ensures Conclude(s2, j, e).0 == Report(s2.w.script, j, e) { ConcludeEnding(s2, j, e); }
    InstallationEnding(c, s2, job, m);
    Fetching(x);
    hide Conclude, Installation, InstallationTable, FileJobs.Replaced, Verified, Releases.Active, PriorThere, Drop,
         GoodFor, Releases.FirstRefused;
  }

  /** The manifest passed the check that has to be configured. */
  predicate Accepted(c: Setting, m: Manifest) { c.verify.Some? && c.verify.value(m).None? }

  lemma AcceptedIs(c: Setting, m: Manifest)
    ensures Verified(c, m).None? <==> Accepted(c, m)
    ensures c.verify.None? ==> Verified(c, m) == Some("no signed manifest verifier configured")
    ensures c.verify.Some? ==> Verified(c, m) == c.verify.value(m)
  {
  }

  /** Counting on from the eighth call. */
  lemma Shift(x: Script, n: nat)
    requires GoodFor(x, 8)
    ensures Releases.FirstRefused(Drop(x, 8), n) <==> Releases.FirstRefused(x, 8 + n)
    ensures GoodFor(Drop(x, 8), n) <==> GoodFor(x, 8 + n)
    ensures Drop(Drop(x, 8), n) == Drop(x, 8 + n)
  {
    GoodForSplit(x, 8, n);
  }

  lemma Shifts(x: Script)
    requires GoodFor(x, 8)
    ensures forall n :: 0 <= n < 5 ==> (Releases.FirstRefused(Drop(x, 8), n) <==> Releases.FirstRefused(x, 8 + n))
    ensures forall n :: 0 <= n < 5 ==> Drop(Drop(x, 8), n) == Drop(x, 8 + n)
    ensures GoodFor(Drop(x, 8), 4) <==> GoodFor(x, 12)
  {
    forall n | 0 <= n < 5
      ensures Releases.FirstRefused(Drop(x, 8), n) <==> Releases.FirstRefused(x, 8 + n)
      ensures Drop(Drop(x, 8), n) == Drop(x, 8 + n)
    {
      Shift(x, n);
    }
    Shift(x, 4);
  }

  /** The run comes to its activation: the manifest is accepted, the digest right, and the record,
      the fetch, the backup and the staging are done. */
  predicate Reaches(c: Setting, m: Manifest, x: Script)
  {
    Accepted(c, m) && c.digest(c.fetched) == m.sha256 && GoodFor(x, 12)
  }

  lemma ReachesTable(c: Setting, m: Manifest, x: Script, t: Tree, job: Job)
    requires Reaches(c, m, x)
    ensures UpdateTable(c, m, x, t, job) ==
            ActivationTable(Drop(x, 12), t.tmp.None?, PriorThere(c, m, t), Releases.Active(t), job)
  {
    AcceptedIs(c, m);
    GoodForSplit(x, 8, 4);
    Fetching(x);
    Shifts(x);
    NoneRefused(Drop(x, 8));
    hide ActivationTable, PriorThere, Releases.Active, Drop, GoodFor, Verified, Releases.FirstRefused;
  }

  lemma NoneRefused(y: Script)
    requires GoodFor(y, 4)
    ensures forall n :: 0 <= n < 4 ==> !Releases.FirstRefused(y, n)
  {
    forall n | 0 <= n < 4 ensures !Releases.FirstRefused(y, n) { GoodForSplit(y, n, 4 - n); }
  }

  // ---- What the tables say ----

  predicate Succeeds(o: Outcome) { o.Returned? && o.job.state.Succeeded? }

  /** What a returned outcome looks like for a job: it succeeded, without an error, or failed. */
  predicate Shaped(o: Outcome, job: Job)
  {
    o.Returned? ==>
      && o.job == job.(state := o.job.state, phase := o.job.phase, message := o.job.message)
      && (o.job.state.Succeeded? || o.job.state.Failed?)
      && (o.job.state.Succeeded? <==> o.error.None?) && (o.job.state.Succeeded? <==> o.job.phase.Complete?)
  }

  lemma FailureIs(x: Script, job: Job, phase: Phase, reason: string)
    requires !phase.Complete?
    ensures var o := Failure(x, job, phase, reason);
            && Shaped(o, job) && !Succeeds(o) && (o.Returned? <==> GoodFor(x, 7))
            && (o.Returned? ==> o.job.phase == phase && o.error == Some(reason))
  {
    hide GoodFor;
  }

  lemma RollBackIs(y: Script, free: bool, back: bool, previous: string, reason: string, job: Job)
    ensures var o, e := RollBackTable(y, free, back, previous, reason, job), Releases.SwitchEnding(y, free);
            && Shaped(o, job) && !Succeeds(o)
            && (o.Returned? ==> o.job.phase.RolledBack? || o.job.phase.Rollback?)
            && (o.Returned? && o.job.phase.RolledBack? <==> back && e.Passes? && GoodFor(Drop(y, 4), 7))
            && (o.Returned? && o.job.phase.Rollback? <==>
                  if back then e.Fails? && GoodFor(Drop(y, e.used), 7) else GoodFor(y, 7))
  {
    hide GoodFor, Drop, Releases.SwitchEnding;
  }

  lemma HealthIs(y: Script, back: bool, previous: string, job: Job)
    ensures var o, e := HealthTable(y, back, previous, job), Releases.SwitchEnding(Drop(y, 1), true);
            && Shaped(o, job)
            && (Succeeds(o) <==> Head(y).Good? && GoodFor(Drop(y, 1), 7))
            && (o.Returned? ==> o.job.phase.Complete? || o.job.phase.RolledBack? || o.job.phase.Rollback?)
            && (o.Returned? && o.job.phase.RolledBack? <==>
                  Head(y).Bad? && back && e.Passes? && GoodFor(Drop(Drop(y, 1), 4), 7))
            && (o.Returned? && o.job.phase.Rollback? <==>
                  Head(y).Bad? && if back then e.Fails? && GoodFor(Drop(Drop(y, 1), e.used), 7)
                                  else GoodFor(Drop(y, 1), 7))
  {
    if Head(y).Bad? { RollBackIs(Drop(y, 1), true, back, previous, Head(y).reason, job); }
    hide GoodFor, Drop, Releases.SwitchEnding, RollBackTable;
  }

  lemma ActivationIs(y: Script, free: bool, back: bool, previous: string, job: Job)
    ensures var o, e := ActivationTable(y, free, back, previous, job), Releases.SwitchEnding(y, free);
            && Shaped(o, job)
            && (e.Passes? ==> o == HealthTable(Drop(y, 4), back, previous, job))
            && (Succeeds(o) <==> e.Passes? && Head(Drop(y, 4)).Good? && GoodFor(Drop(Drop(y, 4), 1), 7))
            && (o.Returned? && o.job.phase.Activate? <==> e.Fails? && GoodFor(Drop(y, e.used), 7))
            && (o.Returned? && o.job.phase.Activate? ==> o.error == Some(e.reason))
            && (o.Returned? && !e.Passes? ==> o.job.phase.Activate?)
  {
    var e := Releases.SwitchEnding(y, free);
    HealthIs(Drop(y, 4), back, previous, job);
    if e.Fails? { FailureIs(Drop(y, e.used), job, Activate, e.reason); }
    hide GoodFor, Drop, Releases.SwitchEnding, HealthTable, Failure, Shaped;
  }

  lemma OneRefused(y: Script, n: nat, k: nat)
    requires n < k && Releases.FirstRefused(y, n)
    ensures !Releases.FirstRefused(y, k) && !GoodFor(y, k)
  {
    GoodForSplit(y, n, k - n);
  }

  lemma InstallationIs(y: Script, free: bool, back: bool, previous: string, job: Job)
    ensures var o := InstallationTable(y, free, back, previous, job);
            && Shaped(o, job)
            && (GoodFor(y, 4) ==> o == ActivationTable(Drop(y, 4), free, back, previous, job))
            && (!GoodFor(y, 4) ==> !Succeeds(o))
            && (forall n :: 0 <= n < 4 && Releases.FirstRefused(y, n) ==>
                  o == Failure(Drop(y, n + 1), job, if n == 0 then At(Backup) else Stage, Head(Drop(y, n)).reason))
  {
    assert Drop(y, 0) == y;
    ActivationIs(Drop(y, 4), free, back, previous, job);
    forall n, phase: Phase, reason | !phase.Complete?
      ensures Shaped(Failure(Drop(y, n), job, phase, reason), job)
              && !Succeeds(Failure(Drop(y, n), job, phase, reason)) {
      FailureIs(Drop(y, n), job, phase, reason);
    }
    if GoodFor(y, 4) { NoneRefused(y); }
    forall n, k | 0 <= n < k < 4 && Releases.FirstRefused(y, n) ensures !Releases.FirstRefused(y, k) {
      OneRefused(y, n, k);
    }
    hide GoodFor, Drop, ActivationTable, Failure, Shaped, Releases.FirstRefused, Succeeds;
  }

  lemma UpdateIs(c: Setting, m: Manifest, x: Script, t: Tree, job: Job)
    ensures var o := UpdateTable(c, m, x, t, job);
            && Shaped(o, job) && (!Reaches(c, m, x) ==> !Succeeds(o))
            && (!Accepted(c, m) && GoodFor(x, 7) ==>
                  o == Failure(Drop(x, 7), job, VerifyManifest, Verified(c, m).value))
            && (Accepted(c, m) && Releases.FirstRefused(x, 7) ==>
                  o == Failure(Drop(x, 8), job, Download, Head(Drop(x, 7)).reason))
            && (Accepted(c, m) && GoodFor(x, 8) && c.digest(c.fetched) != m.sha256 ==>
                  o == Failure(Drop(x, 8), job, VerifyDigest, "release digest mismatch"))
            && (Accepted(c, m) && GoodFor(x, 8) && c.digest(c.fetched) == m.sha256 ==>
                  o == InstallationTable(Drop(x, 8), t.tmp.None?, PriorThere(c, m, t), Releases.Active(t), job))
  {
    AcceptedIs(c, m);
    Fetching(x);
    InstallationIs(Drop(x, 8), t.tmp.None?, PriorThere(c, m, t), Releases.Active(t), job);
    GoodForSplit(x, 8, 4);
    forall n, phase: Phase, reason | !phase.Complete?
      ensures Shaped(Failure(Drop(x, n), job, phase, reason), job)
              && !Succeeds(Failure(Drop(x, n), job, phase, reason)) {
      FailureIs(Drop(x, n), job, phase, reason);
    }
    hide GoodFor, Drop, InstallationTable, Failure, Shaped, Releases.FirstRefused, Succeeds, Verified, PriorThere;
  }

  // ---- The results ----

  /** An update that had not succeeded returns Succeeded if and only if the manifest is accepted, the
      digest is right, and every call is done but a removal of nothing: record, fetch, backup and
      staging, the switch, the health check and the report. */
  lemma UpdateSucceedsIff(c: Setting, s: FileJobs.Store, id: string, m: Manifest)
    requires FilledIn(id, m) && !(id in s.jobs && s.jobs[id].state.Succeeded?)
    ensures var o, x := UpdateJob(c, s, id, m).0, s.w.script;
            o.Returned? && o.job.state.Succeeded? <==>
              Reaches(c, m, x) && Releases.SwitchEnding(Drop(x, 12), s.w.tree.tmp.None?).Passes?
              && Head(Drop(x, 16)).Good? && GoodFor(Drop(x, 17), 7)
  {
    var x, t, job := s.w.script, s.w.tree, Job(id, "update", Running, Unset, Blank, [], {});
    UpdateEnding(c, s, id, m);
    UpdateIs(c, m, x, t, job);
    Counting(x);
    if Reaches(c, m, x) {
      ReachesTable(c, m, x, t, job);
      ActivationIs(Drop(x, 12), t.tmp.None?, PriorThere(c, m, t), Releases.Active(t), job);
    }
    hide UpdateJob, UpdateTable, ActivationTable, Releases.SwitchEnding, PriorThere, Releases.Active, Drop, GoodFor,
         Shaped, Reaches, Verified, Failure;
  }

  lemma Counting(x: Script)
    ensures Drop(Drop(x, 12), 4) == Drop(x, 16) && Drop(Drop(x, 16), 1) == Drop(x, 17)
    ensures Drop(Drop(x, 17), 4) == Drop(x, 21)
    ensures forall n: nat :: Drop(Drop(x, 12), n) == Drop(x, 12 + n)
    ensures forall n: nat :: Drop(Drop(x, 17), n) == Drop(x, 17 + n)
  {
    hide Drop, GoodFor;
    GoodForSplit(x, 12, 4);
    GoodForSplit(x, 16, 1);
    GoodForSplit(x, 17, 4);
    forall n: nat ensures Drop(Drop(x, 12), n) == Drop(x, 12 + n) { GoodForSplit(x, 12, n); }
    forall n: nat ensures Drop(Drop(x, 17), n) == Drop(x, 17 + n) { GoodForSplit(x, 17, n); }
  }

  /** An update returns a job of its own that either succeeded, without an error, or failed, with one. */
  lemma ReturnsWhat(c: Setting, s: FileJobs.Store, id: string, m: Manifest)
    requires FilledIn(id, m) && !(id in s.jobs && s.jobs[id].state.Succeeded?)
    ensures var o := UpdateJob(c, s, id, m).0;
            o.Returned? ==>
              && o.job == Job(id, "update", o.job.state, o.job.phase, o.job.message, [], {})
              && (o.job.state.Succeeded? || o.job.state.Failed?)
              && (o.job.state.Succeeded? <==> o.error.None?)
              && (o.job.state.Succeeded? <==> o.job.phase.Complete?)
  {
    UpdateEnding(c, s, id, m);
    UpdateIs(c, m, s.w.script, s.w.tree, Job(id, "update", Running, Unset, Blank, [], {}));
    hide UpdateJob, UpdateTable, Reaches, Succeeds, Failure, InstallationTable;
  }

  /** A failure before the activation names the call that was refused, and its reason: the fetch is
      the eighth call, the backup the ninth, and the staging the three after it. */
  lemma EarlyFailures(c: Setting, s: FileJobs.Store, id: string, m: Manifest)
    requires FilledIn(id, m) && !(id in s.jobs && s.jobs[id].state.Succeeded?)
    ensures var o, x := UpdateJob(c, s, id, m).0, s.w.script;
            && (!Accepted(c, m) && GoodFor(x, 7) && GoodFor(Drop(x, 7), 7) ==>
                  o.Returned? && o.job.phase.VerifyManifest? && o.error == Verified(c, m))
            && (Accepted(c, m) && Releases.FirstRefused(x, 7) && GoodFor(Drop(x, 8), 7) ==>
                  o.Returned? && o.job.phase.Download? && o.error == Some(Head(Drop(x, 7)).reason))
            && (Accepted(c, m) && GoodFor(x, 8) && GoodFor(Drop(x, 8), 7) && c.digest(c.fetched) != m.sha256 ==>
                  o.Returned? && o.job.phase.VerifyDigest? && o.error == Some("release digest mismatch"))
  {
    var x, t, job := s.w.script, s.w.tree, Job(id, "update", Running, Unset, Blank, [], {});
    UpdateEnding(c, s, id, m);
    UpdateIs(c, m, x, t, job);
    AcceptedIs(c, m);
    forall n, phase: Phase, reason | !phase.Complete?
      ensures var o := Failure(Drop(x, n), job, phase, reason);
              && (o.Returned? <==> GoodFor(Drop(x, n), 7))
              && (o.Returned? ==> o.job.phase == phase && o.error == Some(reason)) {
      FailureIs(Drop(x, n), job, phase, reason);
    }
    hide UpdateJob, UpdateTable, InstallationTable, Drop, GoodFor, Verified, Releases.FirstRefused, Failure, Shaped,
         Reaches, Succeeds;
  }

  lemma StagingFailures(c: Setting, s: FileJobs.Store, id: string, m: Manifest, n: nat)
    requires FilledIn(id, m) && !(id in s.jobs && s.jobs[id].state.Succeeded?)
    requires Accepted(c, m) && c.digest(c.fetched) == m.sha256
    requires 8 <= n < 12 && Releases.FirstRefused(s.w.script, n) && GoodFor(Drop(s.w.script, n + 1), 7)
    ensures var o, x := UpdateJob(c, s, id, m).0, s.w.script;
            && o.Returned? && o.error == Some(Head(Drop(x, n)).reason)
            && o.job.phase == if n == 8 then At(Backup) else Stage
  {
    var x, t, job := s.w.script, s.w.tree, Job(id, "update", Running, Unset, Blank, [], {});
    UpdateEnding(c, s, id, m);
    UpdateIs(c, m, x, t, job);
    GoodForSplit(x, 8, n - 8);
    Shift(x, n - 8);
    Shift(x, n - 7);
    InstallationIs(Drop(x, 8), t.tmp.None?, PriorThere(c, m, t), Releases.Active(t), job);
    FailureIs(Drop(x, n + 1), job, if n == 8 then At(Backup) else Stage, Head(Drop(x, n)).reason);
    hide UpdateJob, UpdateTable, InstallationTable, Drop, GoodFor, Verified, Releases.FirstRefused, Failure, Shaped,
         Reaches, Succeeds, PriorThere;
  }

  /** The activation fails exactly when its switch does, with that error. */
  lemma ActivationFails(c: Setting, s: FileJobs.Store, id: string, m: Manifest)
    requires FilledIn(id, m) && !(id in s.jobs && s.jobs[id].state.Succeeded?)
    requires Reaches(c, m, s.w.script)
    ensures var o, x := UpdateJob(c, s, id, m).0, s.w.script;
            var to := Releases.SwitchEnding(Drop(x, 12), s.w.tree.tmp.None?);
            && (o.Returned? && o.job.phase.Activate? <==> to.Fails? && GoodFor(Drop(x, 12 + to.used), 7))
            && (o.Returned? && o.job.phase.Activate? ==> o.error == Some(to.reason))
  {
    var x, t, job := s.w.script, s.w.tree, Job(id, "update", Running, Unset, Blank, [], {});
    UpdateEnding(c, s, id, m);
    ReachesTable(c, m, x, t, job);
    Counting(x);
    ActivationIs(Drop(x, 12), t.tmp.None?, PriorThere(c, m, t), Releases.Active(t), job);
    hide UpdateJob, UpdateTable, ActivationTable, HealthTable, PriorThere, Releases.Active, Releases.SwitchEnding, Drop,
         GoodFor, Reaches, Shaped, Succeeds;
  }

  /** A roll back is tried exactly when the health check is refused, and goes through exactly when the
      prior release is there and the switch back passes. */
  lemma RollsBackIff(c: Setting, s: FileJobs.Store, id: string, m: Manifest)
    requires FilledIn(id, m) && !(id in s.jobs && s.jobs[id].state.Succeeded?)
    requires Reaches(c, m, s.w.script) && Releases.SwitchEnding(Drop(s.w.script, 12), s.w.tree.tmp.None?).Passes?
    ensures var o, x, there := UpdateJob(c, s, id, m).0, s.w.script, PriorThere(c, m, s.w.tree);
            var back := Releases.SwitchEnding(Drop(x, 17), true);
            && (o.Returned? && o.job.phase.RolledBack? <==>
                  Head(Drop(x, 16)).Bad? && there && back.Passes? && GoodFor(Drop(x, 21), 7))
            && (o.Returned? && o.job.phase.Rollback? <==>
                  Head(Drop(x, 16)).Bad?
                  && if there then back.Fails? && GoodFor(Drop(x, 17 + back.used), 7) else GoodFor(Drop(x, 17), 7))
  {
    var x, t, job := s.w.script, s.w.tree, Job(id, "update", Running, Unset, Blank, [], {});
    UpdateEnding(c, s, id, m);
    ReachesTable(c, m, x, t, job);
    Counting(x);
    ActivationIs(Drop(x, 12), t.tmp.None?, PriorThere(c, m, t), Releases.Active(t), job);
    HealthIs(Drop(x, 16), PriorThere(c, m, t), Releases.Active(t), job);
    hide UpdateJob, UpdateTable, ActivationTable, HealthTable, PriorThere, Releases.Active, Releases.SwitchEnding, Drop,
         GoodFor, Reaches, Shaped, Succeeds;
  }

  lemma InstallationReturns(y: Script, free: bool, back: bool, previous: string, job: Job) returns (n: nat)
    requires InstallationTable(y, free, back, previous, job).Returned? && !GoodFor(y, 4)
    ensures n < 4 && Releases.FirstRefused(y, n) && GoodFor(Drop(y, n + 1), 7)
  {
    hide GoodFor, Drop, Releases.FirstRefused, ActivationTable;
    n := if Releases.FirstRefused(y, 0) then 0 else if Releases.FirstRefused(y, 1) then 1
         else if Releases.FirstRefused(y, 2) then 2 else 3;
  }

  /** Every returned failure is one of these. */
  lemma FailsSomewhere(c: Setting, s: FileJobs.Store, id: string, m: Manifest)
    requires FilledIn(id, m) && !(id in s.jobs && s.jobs[id].state.Succeeded?)
    requires UpdateJob(c, s, id, m).0.Returned? && !Reaches(c, m, s.w.script)
    ensures var x := s.w.script;
            || (!Accepted(c, m) && GoodFor(x, 7) && GoodFor(Drop(x, 7), 7))
            || (Accepted(c, m) && Releases.FirstRefused(x, 7) && GoodFor(Drop(x, 8), 7))
            || (Accepted(c, m) && GoodFor(x, 8) && GoodFor(Drop(x, 8), 7) && c.digest(c.fetched) != m.sha256)
            || (Accepted(c, m) && c.digest(c.fetched) == m.sha256
                && exists n :: 8 <= n < 12 && Releases.FirstRefused(x, n) && GoodFor(Drop(x, n + 1), 7))
  {
    var x := s.w.script;
    UpdateEnding(c, s, id, m);
    AcceptedIs(c, m);
    Fetching(x);
    if GoodFor(x, 8) { Shifts(x); }
    assert Drop(Drop(x, 8), 0) == Drop(x, 8);
    GoodForSplit(x, 8, 4);
    hide UpdateJob, InstallationTable, PriorThere, Releases.Active, Drop, GoodFor, Verified, Releases.FirstRefused;
    if Accepted(c, m) && GoodFor(x, 8) && c.digest(c.fetched) == m.sha256 {
      var n := InstallationReturns(Drop(x, 8), s.w.tree.tmp.None?, PriorThere(c, m, s.w.tree),
                                   Releases.Active(s.w.tree), Job(id, "update", Running, Unset, Blank, [], {}));
      assert 8 <= 8 + n < 12 && Releases.FirstRefused(x, 8 + n) && GoodFor(Drop(x, 8 + n + 1), 7);
    }
  }
}
