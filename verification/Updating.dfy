// The release update workflow (bottle-agent/internal/lifecycle/lifecycle.go:191-258).
module Updating {
  import opened Prelude
  import opened Machine
  import FileJobs
  import Releases

  datatype Manifest = Manifest(version: string, url: string, sha256: string)

  /** A run's inputs that no step changes: the optional manifest check, the digest, and what the
      fetch yields when it succeeds. */
  datatype Setting = Setting(
    releases: Path, verify: Option<Manifest -> Option<string>>, digest: string -> string, fetched: string)

  /** A run returns a job and perhaps an error, refuses an incomplete request, or crashes. */
  datatype Outcome = Returned(job: Job, error: Option<string>) | Incomplete | Crashed

  const ROLLED_BACK_ERROR := "update rolled back after failed health check"

  function NewJob(id: string): Job { Job(id, "update", Running, Unset, Blank, [], {}) }

  function Conclude(s: FileJobs.Store, job: Job, error: Option<string>): (Outcome, FileJobs.Store)
  {
    var (ok, s') := FileJobs.Replaced(s, job);
    (if ok then Returned(job, error) else Crashed, s')
  }

  function Fail(s: FileJobs.Store, job: Job, phase: Phase, reason: string): (Outcome, FileJobs.Store)
  {
    Conclude(s, job.(state := Failed, phase := phase, message := Told(reason)), Some(reason))
  }

  function Verified(c: Setting, m: Manifest): Option<string>
  {
    match c.verify
    case None => Some("no signed manifest verifier configured")
    case Some(check) => check(m)
  }

  // ---- The run, last part first ----

  function HealthOrRollback(c: Setting, s: FileJobs.Store, job: Job, previous: string): (Outcome, FileJobs.Store)
  {
    var s1 := s.(w := Performed(s.w, job.id, Health));
    match NextAnswer(s.w)
    case Good =>
      Conclude(s1, job.(state := Succeeded, phase := Complete, message := Updated), None)
    case Dead(_) => (Crashed, s1)
    case Bad(reason) => RollBack(c, s1, job, previous, reason)
  }

  function RollBack(c: Setting, s: FileJobs.Store, job: Job, previous: string, reason: string)
    : (Outcome, FileJobs.Store)
  {
    var (r, w) := Releases.Switched(s.w, c.releases, previous);
    match r
    case Ok =>
      Conclude(s.(w := w), job.(state := Failed, phase := RolledBack, message := Reverted),
               Some(ROLLED_BACK_ERROR))
    case Err(e) => Fail(s.(w := w), job, Rollback, "health check failed: " + reason + "; rollback failed: " + e)
    case Gone => (Crashed, s.(w := w))
  }

  function Activation(c: Setting, s: FileJobs.Store, job: Job, version: string, previous: string)
    : (Outcome, FileJobs.Store)
  {
    var (r, w) := Releases.Switched(s.w, c.releases, version);
    match r
    case Ok => HealthOrRollback(c, s.(w := w), job, previous)
    case Err(e) => Fail(s.(w := w), job, Activate, e)
    case Gone => (Crashed, s.(w := w))
  }

  function Installation(c: Setting, s: FileJobs.Store, job: Job, version: string): (Outcome, FileJobs.Store)
  {
    var s1 := s.(w := Performed(s.w, job.id, Backup));
    match NextAnswer(s.w)
    case Bad(e) => Fail(s1, job, At(Backup), e)
    case Dead(_) => (Crashed, s1)
    case Good =>
      var previous := Releases.Active(s1.w.tree);
      var (r, w) := Releases.Staged(s1.w, c.releases, version, c.fetched);
      match r
      case Ok => Activation(c, s1.(w := w), job, version, previous)
      case Err(e) => Fail(s1.(w := w), job, Stage, e)
      case Gone => (Crashed, s1.(w := w))
  }

  function Transfer(c: Setting, s: FileJobs.Store, job: Job, m: Manifest): (Outcome, FileJobs.Store)
  {
    var s1 := s.(w := Asked(s.w));
    match NextAnswer(s.w)
    case Bad(e) => Fail(s1, job, Download, e)
    case Dead(_) => (Crashed, s1)
    case Good =>
      if c.digest(c.fetched) != m.sha256 then Fail(s1, job, VerifyDigest, "release digest mismatch")
      else Installation(c, s1, job, m.version)
  }

  predicate FilledIn(id: string, m: Manifest)
  {
    id != "" && m.version != "" && m.url != "" && m.sha256 != ""
  }

  function UpdateJob(c: Setting, s: FileJobs.Store, id: string, m: Manifest): (Outcome, FileJobs.Store)
  {
    if !FilledIn(id, m) then (Incomplete, s)
    else if id in s.jobs && s.jobs[id].state.Succeeded? then (Returned(s.jobs[id], None), s)
    else
      var job := NewJob(id);
      var (ok, s1) := FileJobs.Replaced(s, job);
      if !ok then (Crashed, s1)
      else if Verified(c, m).Some? then Fail(s1, job, VerifyManifest, Verified(c, m).value)
      else Transfer(c, s1, job, m)
  }

  // ---- Outcomes ----

  /** What an update makes of the tree and the trace it started with; `switching` is the script
      from the activation on. */
  ghost predicate Result(c: Setting, id: string, m: Manifest, t: Tree, trace: seq<Effect>, switching: Script,
                         o: Outcome, w: World)
  {
    var target := Releases.Join(c.releases, m.version);
    var back := Releases.Join(c.releases, Releases.Active(t));
    // Only the staged file changes, and the link only to the new release or back.
    && (forall p :: p in t.files && p != Releases.ReleaseFile(target) ==>
          p in w.tree.files && w.tree.files[p] == t.files[p])
    && t.dirs <= w.tree.dirs
    && (w.tree.current == t.current || w.tree.current == Some(target) || w.tree.current == Some(back))
    && (o.Returned? ==>
          && (o.job.state.Succeeded? ==>
                && Verified(c, m).None? && c.digest(c.fetched) == m.sha256 && o.error.None?
                && w.tree.current == Some(target)
                && Releases.ReleaseFile(target) in w.tree.files
                && w.tree.files[Releases.ReleaseFile(target)] == Whole(c.fetched)
                && w.trace == trace + [Effect(id, Backup), Effect(id, Health)])
          && (o.job.phase.RolledBack? ==>
                && o.error == Some(ROLLED_BACK_ERROR) && w.tree.current == Some(back)
                && Releases.ReleaseFile(target) in w.tree.files
                && w.tree.files[Releases.ReleaseFile(target)] == Whole(c.fetched))
          && (o.job.phase in {VerifyManifest, Download, VerifyDigest, At(Backup)} ==> w.tree == t)
          && (o.job.phase.Stage? ==> w.tree.current == t.current)
          // A switch that fails has moved the link exactly if its restart failed.
          && (o.job.phase.Activate? ==>
                w.tree.current == if Releases.RestartFails(switching, t.tmp.None?) then Some(target) else t.current)
          && (o.job.phase.Rollback? ==>
                w.tree.current == if Releases.Exists(w.tree, back) && Releases.RestartFails(Drop(switching, 5), true)
                                  then Some(back) else Some(target)))
  }

  /** Reporting touches neither the tree nor the trace. */
  lemma ConcludeTree(s: FileJobs.Store, job: Job, error: Option<string>)
    ensures var (o, s') := Conclude(s, job, error);
            && s'.w.tree == s.w.tree && s'.w.trace == s.w.trace && (o == Crashed || o == Returned(job, error))
            && (o.Returned? <==> GoodFor(s.w.script, 7))
  {
    FileJobs.FlushAtomic(s.w, s.jobs[job.id := job]);
  }

  /** The tree after staging: at most the staged file is new, and the links are as they were. */
  ghost predicate Prepared(c: Setting, m: Manifest, t: Tree, w: World)
  {
    var file := Releases.ReleaseFile(Releases.Join(c.releases, m.version));
    && (forall p :: p in t.files && p != file ==> p in w.tree.files && w.tree.files[p] == t.files[p])
    && t.dirs <= w.tree.dirs && w.tree.current == t.current && w.tree.tmp == t.tmp
  }

  /** ... and complete. */
  ghost predicate Ready(c: Setting, id: string, m: Manifest, t: Tree, trace: seq<Effect>, w: World)
  {
    var target := Releases.Join(c.releases, m.version);
    && Prepared(c, m, t, w.(tree := w.tree.(current := t.current, tmp := t.tmp)))
    && Releases.Exists(w.tree, target)
    && Verified(c, m).None? && c.digest(c.fetched) == m.sha256
    && Releases.ReleaseFile(target) in w.tree.files && w.tree.files[Releases.ReleaseFile(target)] == Whole(c.fetched)
    && w.trace == trace + [Effect(id, Backup)]
  }

  lemma HealthResult(c: Setting, s: FileJobs.Store, job: Job, m: Manifest, t: Tree, trace: seq<Effect>,
                     switching: Script)
    requires Ready(c, job.id, m, t, trace, s.w) && !job.state.Succeeded? && job.phase.Unset?
    requires s.w.tree.current == Some(Releases.Join(c.releases, m.version)) && s.w.tree.tmp.None?
    requires s.w.script == Drop(switching, 4)
    ensures var (o, s') := HealthOrRollback(c, s, job, Releases.Active(t));
            Result(c, job.id, m, t, trace, switching, o, s'.w)
  {
    GoodForSplit(switching, 4, 1);
    assert Tail(s.w.script) == Drop(s.w.script, 1);
    hide Conclude, RollBack, Releases.Join, Releases.ReleaseFile, Releases.Active, Releases.RestartFails, Drop;
    var s1 := s.(w := Performed(s.w, job.id, Health));
    match NextAnswer(s.w)
    case Good =>
      ConcludeTree(s1, job.(state := Succeeded, phase := Complete, message := Updated), None);
      assert s1.w.trace == trace + [Effect(job.id, Backup), Effect(job.id, Health)];
    case Dead(_) =>
    case Bad(reason) => RollbackResult(c, s1, job, m, t, trace, switching, reason);
  }

  lemma RollbackResult(c: Setting, s: FileJobs.Store, job: Job, m: Manifest, t: Tree, trace: seq<Effect>,
                       switching: Script, reason: string)
    requires Prepared(c, m, t, s.w.(tree := s.w.tree.(current := t.current, tmp := t.tmp)))
    requires var file := Releases.ReleaseFile(Releases.Join(c.releases, m.version));
             file in s.w.tree.files && s.w.tree.files[file] == Whole(c.fetched)
    requires !job.state.Succeeded? && job.phase.Unset?
    requires s.w.tree.current == Some(Releases.Join(c.releases, m.version)) && s.w.tree.tmp.None?
    requires s.w.script == Drop(switching, 5)
    ensures var (o, s') := RollBack(c, s, job, Releases.Active(t), reason);
            Result(c, job.id, m, t, trace, switching, o, s'.w)
  {
    hide Conclude, Releases.Switched, Releases.Join, Releases.ReleaseFile, Releases.Active, Releases.RestartFails, Drop;
    var previous := Releases.Active(t);
    Releases.SwitchAtomic(s.w, c.releases, previous);
    var (r, w) := Releases.Switched(s.w, c.releases, previous);
    match r
    case Ok =>
      ConcludeTree(s.(w := w), job.(state := Failed, phase := RolledBack, message := Reverted),
                   Some(ROLLED_BACK_ERROR));
    case Err(e) =>
      Releases.FailedSwitch(s.w, c.releases, previous);
      var text := "health check failed: " + reason + "; rollback failed: " + e;
      ConcludeTree(s.(w := w), job.(state := Failed, phase := Rollback, message := Told(text)), Some(text));
    case Gone =>
  }

  lemma ActivationResult(c: Setting, s: FileJobs.Store, job: Job, m: Manifest, t: Tree, trace: seq<Effect>)
    requires Ready(c, job.id, m, t, trace, s.w) && !job.state.Succeeded? && job.phase.Unset?
    requires s.w.tree.current == t.current && s.w.tree.tmp == t.tmp
    ensures var (o, s') := Activation(c, s, job, m.version, Releases.Active(t));
            Result(c, job.id, m, t, trace, s.w.script, o, s'.w)
  {
    hide Conclude, Releases.Switched, Releases.Join, Releases.ReleaseFile, Releases.Active, HealthOrRollback,
         Releases.RestartFails, Drop;
    Releases.SwitchAtomic(s.w, c.releases, m.version);
    var (r, w) := Releases.Switched(s.w, c.releases, m.version);
    match r
    case Ok => HealthResult(c, s.(w := w), job, m, t, trace, s.w.script);
    case Err(e) =>
      Releases.FailedSwitch(s.w, c.releases, m.version);
      ConcludeTree(s.(w := w), job.(state := Failed, phase := Activate, message := Told(e)), Some(e));
    case Gone =>
  }

  lemma InstallationResult(c: Setting, s: FileJobs.Store, job: Job, m: Manifest)
    requires Verified(c, m).None? && c.digest(c.fetched) == m.sha256 && !job.state.Succeeded? && job.phase.Unset?
    ensures var (o, s') := Installation(c, s, job, m.version);
            Result(c, job.id, m, s.w.tree, s.w.trace, Drop(s.w.script, 4), o, s'.w)
  {
    assert Drop(s.w.script, 4) == Drop(Tail(s.w.script), 3);
    hide Conclude, Releases.Staged, Releases.Join, Releases.ReleaseFile, Releases.Active, Activation,
         Releases.RestartFails, Releases.Ancestors, Drop;
    var s1 := s.(w := Performed(s.w, job.id, Backup));
    match NextAnswer(s.w)
    case Bad(e) => ConcludeTree(s1, job.(state := Failed, phase := At(Backup), message := Told(e)), Some(e));
    case Dead(_) =>
    case Good =>
      Releases.StagedTree(s1.w, c.releases, m.version, c.fetched);
      var (r, w) := Releases.Staged(s1.w, c.releases, m.version, c.fetched);
      match r
      case Ok => ActivationResult(c, s1.(w := w), job, m, s.w.tree, s.w.trace);
      case Err(e) => ConcludeTree(s1.(w := w), job.(state := Failed, phase := Stage, message := Told(e)), Some(e));
      case Gone =>
  }

  /** A run that ends before anything is staged. */
  lemma UntouchedResult(c: Setting, id: string, m: Manifest, trace: seq<Effect>, switching: Script, o: Outcome,
                        w: World)
    requires o.Returned? ==> !o.job.state.Succeeded? && o.job.phase in {VerifyManifest, Download, VerifyDigest}
    ensures Result(c, id, m, w.tree, trace, switching, o, w)
  {
  }

  lemma TransferResult(c: Setting, s: FileJobs.Store, job: Job, m: Manifest)
    requires Verified(c, m).None? && !job.state.Succeeded? && job.phase.Unset?
    ensures var (o, s') := Transfer(c, s, job, m);
            Result(c, job.id, m, s.w.tree, s.w.trace, Drop(s.w.script, 5), o, s'.w)
  {
    assert Drop(s.w.script, 5) == Drop(Tail(s.w.script), 4);
    hide Conclude, Installation, Result, Drop;
    var s1 := s.(w := Asked(s.w));
    var (o, s') := Transfer(c, s, job, m);
    if !(NextAnswer(s.w).Good? && c.digest(c.fetched) == m.sha256) {
      assert s'.w.tree == s.w.tree
             && (o.Returned? ==> !o.job.state.Succeeded? && o.job.phase in {Download, VerifyDigest}) by {
        if NextAnswer(s.w).Bad? {
          var e := NextAnswer(s.w).reason;
          ConcludeTree(s1, job.(state := Failed, phase := Download, message := Told(e)), Some(e));
        }
        var e := "release digest mismatch";
        ConcludeTree(s1, job.(state := Failed, phase := VerifyDigest, message := Told(e)), Some(e));
      }
      UntouchedResult(c, job.id, m, s.w.trace, Drop(s.w.script, 5), o, s'.w);
    } else {
      InstallationResult(c, s1, job, m);
    }
  }

  /** The script from the activation on, when the record, the fetch, the backup and the staging
      went through: their 7 + 1 + 1 + 3 calls are behind. */
  function Switching(s: Script): Script { Drop(s, 12) }

  /** A run for a complete request that has not succeeded before: Succeeded means that the link
      names the requested version, whose stored payload is the one fetched, with the manifest's
      digest, and that backup and health check went through; rolled back means that the link leads
      where the name of the release active before leads; a failure up to staging leaves the link;
      a failed activation or rollback leaves it where a failed switch does. */
  lemma UpdateResult(c: Setting, s: FileJobs.Store, id: string, m: Manifest)
    requires FilledIn(id, m) && !(id in s.jobs && s.jobs[id].state.Succeeded?)
    ensures var (o, s') := UpdateJob(c, s, id, m);
            Result(c, id, m, s.w.tree, s.w.trace, Switching(s.w.script), o, s'.w)
  {
    GoodForSplit(s.w.script, 7, 5);
    hide Conclude, FileJobs.Replaced, Transfer, Result, Verified, Drop, GoodFor;
    var job := NewJob(id);
    PutTree(s, job);
    var (ok, s1) := FileJobs.Replaced(s, job);
    if ok && Verified(c, m).None? {
      TransferResult(c, s1, job, m);
    } else {
      if ok {
        ConcludeTree(s1, job.(state := Failed, phase := VerifyManifest, message := Told(Verified(c, m).value)),
                     Verified(c, m));
      }
      var (o, s') := UpdateJob(c, s, id, m);
      UntouchedResult(c, id, m, s.w.trace, Switching(s.w.script), o, s'.w);
    }
  }

  lemma PutTree(s: FileJobs.Store, job: Job)
    ensures var (ok, s') := FileJobs.Replaced(s, job);
            && s'.w.tree == s.w.tree && s'.w.trace == s.w.trace
            && (ok <==> GoodFor(s.w.script, 7)) && (ok ==> s'.w.script == Drop(s.w.script, 7))
  {
    FileJobs.FlushAtomic(s.w, s.jobs[job.id := job]);
  }

  /** The payload stored for a release is as it was, or there is still none. */
  predicate SamePayload(t: Tree, t': Tree, dir: Path)
  {
    var file := Releases.ReleaseFile(dir);
    && (file in t'.files <==> file in t.files)
    && (file in t.files ==> t'.files[file] == t.files[file])
  }

  /** Whether a roll back restores the prior release, which can be told before the run. The link is
      restored exactly when there was an active release and its name leads back to it; the link
      and the payload it leads to, exactly when besides the update was to another release, or
      fetched what was already stored. */
  lemma RollbackRestores(c: Setting, s: FileJobs.Store, id: string, m: Manifest)
    requires FilledIn(id, m) && !(id in s.jobs && s.jobs[id].state.Succeeded?)
    requires var o := UpdateJob(c, s, id, m).0; o.Returned? && o.job.phase.RolledBack?
    ensures UpdateJob(c, s, id, m).1.w.tree.current == s.w.tree.current <==> LinkLeadsBack(c, s.w.tree)
    ensures var t, t' := s.w.tree, UpdateJob(c, s, id, m).1.w.tree;
            (t'.current == t.current && t.current.Some? && SamePayload(t, t', t.current.value))
            <==> LinkLeadsBack(c, t)
                 && (t.current.value == Releases.Join(c.releases, m.version) ==> Holds(t, t.current.value, c.fetched))
  {
    UpdateResult(c, s, id, m);
    if s.w.tree.current.Some? {
      PayloadAfter(c, s, id, m, s.w.tree.current.value);
    }
    hide UpdateJob, Releases.Join, SamePayload;
  }

  /** After a rolled back update a stored payload is as it was exactly when the update was to
      another release, or fetched what was stored. */
  lemma PayloadAfter(c: Setting, s: FileJobs.Store, id: string, m: Manifest, dir: Path)
    requires FilledIn(id, m) && !(id in s.jobs && s.jobs[id].state.Succeeded?)
    requires var o := UpdateJob(c, s, id, m).0; o.Returned? && o.job.phase.RolledBack?
    ensures SamePayload(s.w.tree, UpdateJob(c, s, id, m).1.w.tree, dir)
            <==> (dir == Releases.Join(c.releases, m.version) ==> Holds(s.w.tree, dir, c.fetched))
  {
    UpdateResult(c, s, id, m);
    UpdateFiles(c, s, id, m);
    hide UpdateJob, Releases.Join, Stages, Drop;
    SameFile(dir, Releases.Join(c.releases, m.version));
  }

  predicate LinkLeadsBack(c: Setting, t: Tree)
  {
    t.current.Some? && Releases.Join(c.releases, Releases.Base(t.current.value)) == t.current.value
  }

  predicate Holds(t: Tree, dir: Path, payload: string)
  {
    Releases.ReleaseFile(dir) in t.files && t.files[Releases.ReleaseFile(dir)] == Whole(payload)
  }

  lemma SameFile(a: Path, b: Path)
    ensures Releases.ReleaseFile(a) == Releases.ReleaseFile(b) <==> a == b
  {
    var f, g := Releases.ReleaseFile(a), Releases.ReleaseFile(b);
    if f == g {
      assert a == f[..|f| - 1] && b == g[..|g| - 1];
    }
  }

  /** In particular a link to an ordinary release directory is restored, and a payload that was
      stored for one is as it was unless the update was to that version and fetched another; but a
      first update that fails its health check leaves the current link on the releases directory
      itself. */
  lemma RollbackCases(c: Setting, s: FileJobs.Store, id: string, m: Manifest, name: string)
    requires FilledIn(id, m) && !(id in s.jobs && s.jobs[id].state.Succeeded?)
    requires var o := UpdateJob(c, s, id, m).0; o.Returned? && o.job.phase.RolledBack?
    requires Releases.Simple(name) && Releases.Simple(m.version)
    ensures var t, t' := s.w.tree, UpdateJob(c, s, id, m).1.w.tree;
            var prior := c.releases + [name];
            && (t.current == Some(prior) ==> t'.current == Some(prior))
            && (SamePayload(t, t', prior) <==> name != m.version || Holds(t, prior, c.fetched))
            && (t.current.None? ==> t'.current == Some(c.releases))
  {
    UpdateResult(c, s, id, m);
    PayloadAfter(c, s, id, m, c.releases + [name]);
    hide UpdateJob, SamePayload, Releases.Join;
    Releases.JoinSimple(c.releases, name);
    Releases.JoinSimple(c.releases, m.version);
    JoinNothing(c.releases);
    assert (c.releases + [name])[|c.releases|] == name;
    assert (c.releases + [m.version])[|c.releases|] == m.version;
  }

  lemma JoinNothing(releases: Path)
    ensures Releases.Join(releases, "") == releases
  {
    assert Releases.Parts("") == [""];
    assert Releases.Walk(releases, [""]) == Releases.Walk(releases, [""][1..]);
  }

  lemma OtherFile(releases: Path, name: string, version: string)
    requires Releases.Simple(version)
    ensures Releases.ReleaseFile(releases + [name]) == Releases.ReleaseFile(Releases.Join(releases, version))
            <==> name == version
  {
    Releases.JoinSimple(releases, version);
    var f, g := Releases.ReleaseFile(releases + [name]), Releases.ReleaseFile(releases + [version]);
    assert f[|releases|] == name && g[|releases|] == version;
  }

  // ---- The stored payloads ----

  lemma RollBackFiles(c: Setting, s: FileJobs.Store, job: Job, previous: string, reason: string)
    ensures RollBack(c, s, job, previous, reason).1.w.tree.files == s.w.tree.files
  {
    hide Conclude, Releases.Switched, Releases.Join;
    Releases.SwitchAtomic(s.w, c.releases, previous);
    var s1 := s.(w := Releases.Switched(s.w, c.releases, previous).1);
    forall job, error ensures Conclude(s1, job, error).1.w.tree == s1.w.tree { ConcludeTree(s1, job, error); }
  }

  lemma ActivationFiles(c: Setting, s: FileJobs.Store, job: Job, version: string, previous: string)
    ensures Activation(c, s, job, version, previous).1.w.tree.files == s.w.tree.files
  {
    hide Conclude, RollBack, Releases.Switched, Releases.Join;
    Releases.SwitchAtomic(s.w, c.releases, version);
    var s1 := s.(w := Releases.Switched(s.w, c.releases, version).1);
    var s2 := s1.(w := Performed(s1.w, job.id, Health));
    forall job, error ensures Conclude(s1, job, error).1.w.tree == s1.w.tree { ConcludeTree(s1, job, error); }
    forall job, error ensures Conclude(s2, job, error).1.w.tree == s2.w.tree { ConcludeTree(s2, job, error); }
    forall reason ensures RollBack(c, s2, job, previous, reason).1.w.tree.files == s2.w.tree.files {
      RollBackFiles(c, s2, job, previous, reason);
    }
  }

  lemma InstallationFiles(c: Setting, s: FileJobs.Store, job: Job, version: string)
    ensures Installation(c, s, job, version).1.w.tree.files ==
            if NextAnswer(s.w).Good?
            then Releases.Stored(s.w.tree.files, Releases.ReleaseFile(Releases.Join(c.releases, version)), c.fetched,
                                 Tail(s.w.script))
            else s.w.tree.files
  {
    hide Conclude, Activation, Releases.Staged, Releases.Join, Releases.ReleaseFile, Releases.Stored,
         Releases.Ancestors;
    var s1 := s.(w := Performed(s.w, job.id, Backup));
    Releases.StagedTree(s1.w, c.releases, version, c.fetched);
    var s2 := s1.(w := Releases.Staged(s1.w, c.releases, version, c.fetched).1);
    forall job, error ensures Conclude(s1, job, error).1.w.tree == s1.w.tree { ConcludeTree(s1, job, error); }
    forall job, error ensures Conclude(s2, job, error).1.w.tree == s2.w.tree { ConcludeTree(s2, job, error); }
    ActivationFiles(c, s2, job, version, Releases.Active(s1.w.tree));
  }

  /** Whether an update gets as far as staging: the request is complete and has not succeeded, the
      manifest and the digest are right, and the record, the fetch and the backup go through. */
  predicate Stages(c: Setting, s: FileJobs.Store, id: string, m: Manifest)
  {
    && FilledIn(id, m) && !(id in s.jobs && s.jobs[id].state.Succeeded?)
    && Verified(c, m).None? && c.digest(c.fetched) == m.sha256 && GoodFor(s.w.script, 9)
  }

  lemma TransferFiles(c: Setting, s: FileJobs.Store, job: Job, m: Manifest)
    ensures Transfer(c, s, job, m).1.w.tree.files ==
            if c.digest(c.fetched) == m.sha256 && GoodFor(s.w.script, 2)
            then Releases.Stored(s.w.tree.files, Releases.ReleaseFile(Releases.Join(c.releases, m.version)), c.fetched,
                                 Drop(s.w.script, 2))
            else s.w.tree.files
  {
    Releases.DropTwo(s.w.script);
    assert GoodFor(s.w.script, 2) <==> Head(s.w.script).Good? && Head(Tail(s.w.script)).Good? by {
      GoodForSplit(s.w.script, 1, 1);
    }
    hide Conclude, Installation, Releases.Join, Releases.ReleaseFile, Releases.Stored, Drop, GoodFor;
    var s1 := s.(w := Asked(s.w));
    forall job, error ensures Conclude(s1, job, error).1.w.tree == s1.w.tree { ConcludeTree(s1, job, error); }
    InstallationFiles(c, s1, job, m.version);
  }

  /** The files after any update, crashes included: as before if it does not get as far as staging,
      and otherwise what the staging stores. */
  lemma UpdateFiles(c: Setting, s: FileJobs.Store, id: string, m: Manifest)
    ensures UpdateJob(c, s, id, m).1.w.tree.files ==
            if Stages(c, s, id, m)
            then Releases.Stored(s.w.tree.files, Releases.ReleaseFile(Releases.Join(c.releases, m.version)), c.fetched,
                                 Drop(s.w.script, 9))
            else s.w.tree.files
  {
    GoodForSplit(s.w.script, 7, 2);
    hide Conclude, FileJobs.Replaced, Transfer, Verified, Releases.Join, Releases.ReleaseFile, Releases.Stored, Drop,
         GoodFor;
    var job := NewJob(id);
    PutTree(s, job);
    var s1 := FileJobs.Replaced(s, job).1;
    forall job, error ensures Conclude(s1, job, error).1.w.tree == s1.w.tree { ConcludeTree(s1, job, error); }
    TransferFiles(c, s1, job, m);
  }

  /** The opening of the staged file takes effect; the write does not. */
  predicate Opens(s: Script) { GoodFor(s, 10) && TakesEffect(Head(Drop(s, 10))) }

  predicate CutsShort(s: Script)
  {
    Opens(s) && !(Head(Drop(s, 10)).Good? && TakesEffect(Head(Drop(s, 11))))
  }

  /** Whether an update writes the file of a release, which can be told before the run. */
  predicate Touches(c: Setting, s: FileJobs.Store, id: string, m: Manifest, name: string)
  {
    name == m.version && Stages(c, s, id, m) && Opens(s.w.script)
  }

  /** The file of a release after any update: as before if the update does not touch it, and
      otherwise cut short or the payload fetched. */
  lemma FileAfter(c: Setting, s: FileJobs.Store, id: string, m: Manifest, name: string)
    requires Releases.Simple(name) && Releases.Simple(m.version)
    requires Releases.ReleaseFile(c.releases + [name]) in s.w.tree.files
    ensures var t, t' := s.w.tree, UpdateJob(c, s, id, m).1.w.tree;
            var file := Releases.ReleaseFile(c.releases + [name]);
            && file in t'.files
            && t'.files[file] == if !Touches(c, s, id, m, name) then t.files[file]
                                 else if CutsShort(s.w.script) then Partial else Whole(c.fetched)
  {
    UpdateFiles(c, s, id, m);
    OtherFile(c.releases, name, m.version);
    if GoodFor(s.w.script, 9) { OpensFrom(s.w.script); }
    hide UpdateJob, Verified, Releases.Join, Releases.ReleaseFile, Drop, GoodFor, Opens, CutsShort;
  }

  lemma OpensFrom(s: Script)
    requires GoodFor(s, 9)
    ensures Opens(s) <==> Head(Drop(s, 9)).Good? && TakesEffect(Head(Drop(Drop(s, 9), 1)))
    ensures CutsShort(s) <==>
              Opens(s) && !(Head(Drop(Drop(s, 9), 1)).Good? && TakesEffect(Head(Drop(Drop(s, 9), 2))))
  {
    GoodForSplit(s, 9, 1);
    GoodForSplit(s, 9, 2);
    assert GoodFor(Drop(s, 9), 1) <==> Head(Drop(s, 9)).Good?;
    hide Drop;
  }

  /** Exactly when an update cuts a stored payload short, which can be told before the run: it is an
      update to that version, it gets as far as staging, the file is opened, and the write fails
      or dies. */
  lemma CutShortIff(c: Setting, s: FileJobs.Store, id: string, m: Manifest, name: string)
    requires Releases.Simple(name) && Releases.Simple(m.version)
    requires var file := Releases.ReleaseFile(c.releases + [name]);
             file in s.w.tree.files && s.w.tree.files[file].Whole?
    ensures var t', file := UpdateJob(c, s, id, m).1.w.tree, Releases.ReleaseFile(c.releases + [name]);
            && file in t'.files
            && (t'.files[file] == Partial <==> name == m.version && Stages(c, s, id, m) && CutsShort(s.w.script))
  {
    FileAfter(c, s, id, m, name);
    hide UpdateJob, Stages, Releases.ReleaseFile, Drop, GoodFor;
  }

  // ---- Any sequence of updates ----

  /** One update: its inputs and the answers to its calls. */
  datatype Attempt = Attempt(c: Setting, id: string, m: Manifest, script: Script)

  function Store(w: World, a: Attempt): FileJobs.Store { FileJobs.Boot(w.(script := a.script)) }

  /** The world after some updates, each in a process that has read the job file. */
  function After(w: World, attempts: seq<Attempt>): World
  {
    if attempts == [] then w
    else
      var a := attempts[|attempts| - 1];
      UpdateJob(a.c, Store(After(w, attempts[..|attempts| - 1]), a), a.id, a.m).1.w
  }

  predicate TouchesAt(w: World, attempts: seq<Attempt>, i: nat, name: string)
    requires i < |attempts|
  {
    Touches(attempts[i].c, Store(After(w, attempts[..i]), attempts[i]), attempts[i].id, attempts[i].m, name)
  }

  /** The i-th update is the last that writes the file of a release. */
  predicate LastTouch(w: World, attempts: seq<Attempt>, i: nat, name: string)
  {
    && i < |attempts| && TouchesAt(w, attempts, i, name)
    && forall j :: i < j < |attempts| ==> !TouchesAt(w, attempts, j, name)
  }

  predicate Ordinary(releases: Path, attempts: seq<Attempt>)
  {
    forall i :: 0 <= i < |attempts| ==> attempts[i].c.releases == releases && Releases.Simple(attempts[i].m.version)
  }

  lemma TouchesEarlier(w: World, attempts: seq<Attempt>, i: nat, name: string)
    requires i < |attempts| - 1
    ensures TouchesAt(w, attempts[..|attempts| - 1], i, name) <==> TouchesAt(w, attempts, i, name)
  {
    assert attempts[..|attempts| - 1][..i] == attempts[..i];
    hide Touches, After;
  }

  lemma LastTouchEarlier(w: World, attempts: seq<Attempt>, name: string)
    requires attempts != [] && !TouchesAt(w, attempts, |attempts| - 1, name)
    ensures forall i: nat :: LastTouch(w, attempts[..|attempts| - 1], i, name) <==> LastTouch(w, attempts, i, name)
  {
    hide TouchesAt;
    var earlier := attempts[..|attempts| - 1];
    forall i: nat | i < |earlier| ensures TouchesAt(w, earlier, i, name) <==> TouchesAt(w, attempts, i, name) {
      TouchesEarlier(w, attempts, i, name);
    }
  }

  /** A stored payload after any updates, crashes included: it is cut short exactly when the last
      update that wrote it cut it short, and otherwise what that update fetched, or what it was. */
  lemma {:induction false} PayloadAfterAll(w: World, attempts: seq<Attempt>, releases: Path, name: string)
    requires Releases.Simple(name) && Ordinary(releases, attempts)
    requires Releases.ReleaseFile(releases + [name]) in w.tree.files
    ensures Releases.ReleaseFile(releases + [name]) in After(w, attempts).tree.files
    ensures var file, t' := Releases.ReleaseFile(releases + [name]), After(w, attempts).tree;
            && (forall i: nat :: LastTouch(w, attempts, i, name) ==>
                  t'.files[file] == if CutsShort(attempts[i].script) then Partial else Whole(attempts[i].c.fetched))
            && ((forall i: nat :: !LastTouch(w, attempts, i, name)) ==> t'.files[file] == w.tree.files[file])
    decreases |attempts|
  {
    hide Touches, UpdateJob, Releases.ReleaseFile, CutsShort, Releases.Simple, TouchesAt;
    if attempts != [] {
      var last, a := |attempts| - 1, attempts[|attempts| - 1];
      PayloadAfterAll(w, attempts[..last], releases, name);
      FileAfter(a.c, Store(After(w, attempts[..last]), a), a.id, a.m, name);
      TouchesLast(w, attempts, name);
      if TouchesAt(w, attempts, last, name) {
        assert LastTouch(w, attempts, last, name);
      } else {
        LastTouchEarlier(w, attempts, name);
        assert forall i :: 0 <= i < last ==> attempts[..last][i] == attempts[i];
        if forall i: nat :: !LastTouch(w, attempts, i, name) {
          forall i: nat ensures !LastTouch(w, attempts[..last], i, name) {
            assert !LastTouch(w, attempts, i, name);
          }
        }
      }
    }
  }

  lemma TouchesLast(w: World, attempts: seq<Attempt>, name: string)
    requires attempts != []
    ensures var a := attempts[|attempts| - 1];
            TouchesAt(w, attempts, |attempts| - 1, name) <==>
            Touches(a.c, Store(After(w, attempts[..|attempts| - 1]), a), a.id, a.m, name)
  {
  }

  /** So a stored payload that was whole stays whole unless some update to that version cuts it
      short, and is cut short in the end exactly when the last one to write it did. */
  lemma WholeUnlessCutShort(w: World, attempts: seq<Attempt>, releases: Path, name: string)
    requires Releases.Simple(name) && Ordinary(releases, attempts)
    requires Releases.ReleaseFile(releases + [name]) in w.tree.files
    requires w.tree.files[Releases.ReleaseFile(releases + [name])].Whole?
    ensures Releases.ReleaseFile(releases + [name]) in After(w, attempts).tree.files
    ensures After(w, attempts).tree.files[Releases.ReleaseFile(releases + [name])] == Partial
            <==> exists i: nat :: LastTouch(w, attempts, i, name) && CutsShort(attempts[i].script)
  {
    hide After, LastTouch, CutsShort, Releases.ReleaseFile;
    PayloadAfterAll(w, attempts, releases, name);
  }

  /** However an update to another version ends, a crash included, a stored release keeps its
      payload: so does the one that the link names. */
  lemma OtherReleaseKept(c: Setting, s: FileJobs.Store, id: string, m: Manifest, name: string)
    requires Releases.Simple(name) && Releases.Simple(m.version) && name != m.version
    ensures var t, t' := s.w.tree, UpdateJob(c, s, id, m).1.w.tree;
            var file := Releases.ReleaseFile(c.releases + [name]);
            file in t.files ==> file in t'.files && t'.files[file] == t.files[file]
  {
    hide UpdateJob;
    UpdateFiles(c, s, id, m);
    OtherFile(c.releases, name, m.version);
  }

  // ---- Runs that go through, and how far ----

  /** A run whose first calls go through, and where the next part of it starts. */
  lemma Records(c: Setting, s: FileJobs.Store, id: string, m: Manifest) returns (s1: FileJobs.Store)
    requires FilledIn(id, m) && !(id in s.jobs && s.jobs[id].state.Succeeded?)
    requires GoodFor(s.w.script, 8) && Verified(c, m).None? && c.digest(c.fetched) == m.sha256
    ensures UpdateJob(c, s, id, m) == Installation(c, s1, NewJob(id), m.version)
    ensures s1.w.script == Drop(s.w.script, 8) && s1.w.tree == s.w.tree
  {
    GoodForSplit(s.w.script, 7, 1);
    PutTree(s, NewJob(id));
    s1 := FileJobs.Replaced(s, NewJob(id)).1;
    assert Tail(s1.w.script) == Drop(s1.w.script, 1);
    s1 := s1.(w := Asked(s1.w));
  }

  lemma Installs(c: Setting, s: FileJobs.Store, job: Job, version: string) returns (s1: FileJobs.Store)
    requires GoodFor(s.w.script, 8)
    ensures Installation(c, s, job, version) == HealthOrRollback(c, s1, job, Releases.Active(s.w.tree))
    ensures s1.w.script == Drop(s.w.script, 8)
    ensures Releases.Ancestors(Releases.Join(c.releases, version)) <= s1.w.tree.dirs
  {
    GoodForSplit(s.w.script, 4, 4);
    GoodForSplit(s.w.script, 1, 3);
    var w1 := Performed(s.w, job.id, Backup);
    assert w1.script == Drop(s.w.script, 1);
    hide Conclude, Releases.Staged, Releases.Switched, Releases.Join, Releases.Active, HealthOrRollback, Drop, GoodFor,
         Releases.Ancestors;
    Releases.StagedGood(w1, c.releases, version, c.fetched);
    Releases.StagedTree(w1, c.releases, version, c.fetched);
    var w2 := Releases.Staged(w1, c.releases, version, c.fetched).1;
    Releases.SwitchedGood(w2, c.releases, version);
    Releases.SwitchAtomic(w2, c.releases, version);
    s1 := s.(w := Releases.Switched(w2, c.releases, version).1);
  }

  /** When nothing is refused, a verified update with the right digest succeeds, whatever the tree
      looks like and whatever an earlier switch left behind. */
  lemma GoodUpdateSucceeds(c: Setting, s: FileJobs.Store, id: string, m: Manifest)
    requires FilledIn(id, m) && AllGood(s.w) && Verified(c, m).None? && c.digest(c.fetched) == m.sha256
    ensures var o := UpdateJob(c, s, id, m).0; o.Returned? && o.error.None? && o.job.state.Succeeded?
  {
    if !(id in s.jobs && s.jobs[id].state.Succeeded?) {
      GrantsGoodFor(s.w.script, 8);
      var s1 := Records(c, s, id, m);
      GrantsGoodFor(s1.w.script, 8);
      var s2 := Installs(c, s1, NewJob(id), m.version);
      GrantsGoodFor(s2.w.script, 8);
      HealthPasses(c, s2, NewJob(id), Releases.Active(s1.w.tree));
    }
  }

  lemma HealthPasses(c: Setting, s: FileJobs.Store, job: Job, previous: string)
    requires GoodFor(s.w.script, 8)
    ensures var o := HealthOrRollback(c, s, job, previous).0;
            o.Returned? && o.error.None? && o.job.state.Succeeded?
  {
    ConcludeTree(s.(w := Performed(s.w, job.id, Health)),
                 job.(state := Succeeded, phase := Complete, message := Updated), None);
  }

  lemma RollsBack(c: Setting, s: FileJobs.Store, job: Job, previous: string)
    requires NextAnswer(s.w).Bad? && GoodFor(Tail(s.w.script), 11)
    requires Releases.Exists(s.w.tree, Releases.Join(c.releases, previous))
    ensures var o := HealthOrRollback(c, s, job, previous).0;
            o.Returned? && o.job.phase.RolledBack? && o.job.message == Reverted
  {
    GoodForSplit(Tail(s.w.script), 4, 7);
    var s1 := s.(w := Performed(s.w, job.id, Health));
    hide Conclude, Releases.Switched, Releases.Join;
    Releases.SwitchedGood(s1.w, c.releases, previous);
    Releases.SwitchAtomic(s1.w, c.releases, previous);
    ConcludeTree(s1.(w := Releases.Switched(s1.w, c.releases, previous).1),
                 job.(state := Failed, phase := RolledBack, message := Reverted), Some(ROLLED_BACK_ERROR));
  }

  // ---- Runs that leave less than they found ----

  /** Everything goes through but the health check. */
  const UNHEALTHY: Script := Goods(16, Then(Bad("unhealthy"), Obliging))

  /** A first update that is rolled back, with no release active before: the job says that the
      prior release was restored, and the link is on the releases directory. */
  lemma FirstUpdateRollsBack(c: Setting, s: FileJobs.Store, id: string, m: Manifest)
    requires FilledIn(id, m) && !(id in s.jobs && s.jobs[id].state.Succeeded?)
    requires Verified(c, m).None? && c.digest(c.fetched) == m.sha256 && Releases.Simple(m.version)
    requires s.w.tree.current.None? && s.w.script == UNHEALTHY
    ensures var (o, s') := UpdateJob(c, s, id, m);
            && o.Returned? && o.job.phase.RolledBack? && o.job.message == Reverted
            && s'.w.tree.current == Some(c.releases)
  {
    hide Drop, Goods, GoodFor, UpdateJob, Installation, HealthOrRollback, Releases.Join, Releases.Ancestors;
    GoodsAre(16, Then(Bad("unhealthy"), Obliging));
    GoodForSplit(s.w.script, 8, 8);
    var s1 := Records(c, s, id, m);
    var s2 := Installs(c, s1, NewJob(id), m.version);
    JoinNothing(c.releases);
    ReleasesMade(c.releases, m.version);
    GrantsGoodFor(Obliging, 11);
    RollsBack(c, s2, NewJob(id), "");
    RollbackCases(c, s, id, m, m.version);
  }

  lemma ReleasesMade(releases: Path, version: string)
    requires Releases.Simple(version)
    ensures releases in Releases.Ancestors(Releases.Join(releases, version))
  {
    Releases.JoinSimple(releases, version);
    assert (releases + [version])[..|releases|] == releases;
  }

  /** An update to the version that is already active, with another payload, on which only the
      health check fails: the job says that the prior release was restored and the link is as it
      was, but what it leads to is the new payload. */
  lemma ReupdateRollsBack(c: Setting, s: FileJobs.Store, id: string, m: Manifest, was: string)
    requires FilledIn(id, m) && !(id in s.jobs && s.jobs[id].state.Succeeded?)
    requires Verified(c, m).None? && c.digest(c.fetched) == m.sha256 && Releases.Simple(m.version)
    requires s.w.tree.current == Some(c.releases + [m.version]) && s.w.script == UNHEALTHY
    requires Holds(s.w.tree, c.releases + [m.version], was) && was != c.fetched
    ensures var (o, s') := UpdateJob(c, s, id, m);
            && o.Returned? && o.job.phase.RolledBack? && o.job.message == Reverted
            && s'.w.tree.current == s.w.tree.current && Holds(s'.w.tree, c.releases + [m.version], c.fetched)
  {
    hide Drop, Goods, GoodFor, UpdateJob, Installation, HealthOrRollback, Releases.Join;
    GoodsAre(16, Then(Bad("unhealthy"), Obliging));
    GoodForSplit(s.w.script, 8, 8);
    var s1 := Records(c, s, id, m);
    var s2 := Installs(c, s1, NewJob(id), m.version);
    Releases.JoinSimple(c.releases, m.version);
    var target := c.releases + [m.version];
    assert target[..|target|] == target;
    GrantsGoodFor(Obliging, 11);
    RollsBack(c, s2, NewJob(id), m.version);
    UpdateResult(c, s, id, m);
  }

  /** Everything goes through up to the write of the staged payload. */
  const DISK_FULL: Script := Goods(11, Then(Bad("disk full"), Obliging))

  /** An update to the version that is already active stages over it: if the write fails, the link
      keeps naming a release whose payload is cut short. */
  lemma RestageLeavesPartial(c: Setting, s: FileJobs.Store, id: string, m: Manifest)
    requires FilledIn(id, m) && !(id in s.jobs && s.jobs[id].state.Succeeded?)
    requires Verified(c, m).None? && c.digest(c.fetched) == m.sha256 && Releases.Simple(m.version)
    requires s.w.tree.current == Some(c.releases + [m.version]) && s.w.script == DISK_FULL
    ensures var (o, s') := UpdateJob(c, s, id, m);
            var file := Releases.ReleaseFile(c.releases + [m.version]);
            && o.Returned? && o.job.phase.Stage? && s'.w.tree.current == s.w.tree.current
            && file in s'.w.tree.files && s'.w.tree.files[file] == Partial
  {
    hide Drop, Goods, GoodFor, UpdateJob, Activation, Releases.Join, Releases.Ancestors;
    GoodsAre(11, Then(Bad("disk full"), Obliging));
    GoodForSplit(s.w.script, 8, 3);
    var s1 := Records(c, s, id, m);
    StagingFails(c, s1, NewJob(id), m.version, "disk full");
    Releases.JoinSimple(c.releases, m.version);
  }

  lemma StagingFails(c: Setting, s: FileJobs.Store, job: Job, version: string, reason: string)
    requires GoodFor(s.w.script, 3) && Drop(s.w.script, 3) == Then(Bad(reason), Obliging)
    ensures var (o, s') := Installation(c, s, job, version);
            var file := Releases.ReleaseFile(Releases.Join(c.releases, version));
            && o.Returned? && o.job.phase.Stage? && s'.w.tree.current == s.w.tree.current
            && file in s'.w.tree.files && s'.w.tree.files[file] == Partial
  {
    hide Conclude, Releases.Join, Releases.ReleaseFile, Activation, Releases.Ancestors;
    var w1 := Performed(s.w, job.id, Backup);
    Releases.DropTwo(s.w.script);
    GoodForSplit(s.w.script, 1, 2);
    GoodForSplit(w1.script, 1, 1);
    var w2 := Releases.Staged(w1, c.releases, version, c.fetched).1;
    GrantsGoodFor(Obliging, 7);
    ConcludeTree(s.(w := w2), job.(state := Failed, phase := Stage, message := Told(reason)), Some(reason));
  }

  // ---- The workflow as the source runs it ----

  class Updater {
    const host: Host
    const file: FileJobs.JobFile
    const tree: Releases.ReleaseHost

    constructor (file: FileJobs.JobFile, releases: Path)
      ensures fresh(tree) && this.file == file && host == file.host && tree.host == host && tree.releases == releases
    {
      this.file, host := file, file.host;
      tree := new Releases.ReleaseHost(file.host, releases);
    }

    predicate Wired() { file.host == host && tree.host == host }

    method Report(job: Job, error: Option<string>) returns (o: Outcome)
      requires Wired()
      modifies file`jobs, host
      ensures (o, file.State()) == Conclude(old(file.State()), job, error)
    {
      var ok := file.Put(job);
      o := if ok then Returned(job, error) else Crashed;
    }

    method ReportFailure(job: Job, phase: Phase, reason: string) returns (o: Outcome)
      requires Wired()
      modifies file`jobs, host
      ensures (o, file.State()) == Fail(old(file.State()), job, phase, reason)
    {
      o := Report(job.(state := Failed, phase := phase, message := Told(reason)), Some(reason));
    }

    method Run(c: Setting, id: string, m: Manifest) returns (o: Outcome)
      requires Wired() && tree.releases == c.releases
      modifies file`jobs, host
      ensures (o, file.State()) == UpdateJob(c, old(file.State()), id, m)
    {
      hide Conclude, FileJobs.Replaced, Releases.Staged, Releases.Switched;
      if !FilledIn(id, m) {
        return Incomplete;
      }
      var prior := file.Get(id);
      if prior.Some? && prior.value.state.Succeeded? {
        return Returned(prior.value, None);
      }
      var job := NewJob(id);
      var ok := file.Put(job);
      if !ok {
        return Crashed;
      }
      var refusal := Verified(c, m);
      if refusal.Some? {
        o := ReportFailure(job, VerifyManifest, refusal.value);
        return;
      }
      var a := host.Ask();
      if a.Bad? {
        o := ReportFailure(job, Download, a.reason);
        return;
      }
      if a.Dead? {
        return Crashed;
      }
      if c.digest(c.fetched) != m.sha256 {
        o := ReportFailure(job, VerifyDigest, "release digest mismatch");
        return;
      }
      o := Install(c, job, m.version);
    }

    method Install(c: Setting, job: Job, version: string) returns (o: Outcome)
      requires Wired() && tree.releases == c.releases
      modifies file`jobs, host
      ensures (o, file.State()) == Installation(c, old(file.State()), job, version)
    {
      hide Conclude, FileJobs.Replaced, Releases.Staged, Releases.Switched;
      var a := host.Perform(job.id, Backup);
      if a.Bad? {
        o := ReportFailure(job, At(Backup), a.reason);
        return;
      }
      if a.Dead? {
        return Crashed;
      }
      var previous := tree.ActiveRelease();
      var r := tree.Stage(version, c.fetched);
      if r.Err? {
        o := ReportFailure(job, Stage, r.reason);
        return;
      }
      if r.Gone? {
        return Crashed;
      }
      r := tree.SwitchTo(version);
      if r.Err? {
        o := ReportFailure(job, Activate, r.reason);
        return;
      }
      if r.Gone? {
        return Crashed;
      }
      o := Confirm(c, job, previous);
    }

    /** The health check, and the rollback if it fails. */
    method Confirm(c: Setting, job: Job, previous: string) returns (o: Outcome)
      requires Wired() && tree.releases == c.releases
      modifies file`jobs, host
      ensures (o, file.State()) == HealthOrRollback(c, old(file.State()), job, previous)
    {
      hide Conclude, FileJobs.Replaced, Releases.Switched;
      var a := host.Perform(job.id, Health);
      if a.Dead? {
        return Crashed;
      }
      if a.Bad? {
        var r := tree.SwitchTo(previous);
        if r.Gone? {
          return Crashed;
        }
        if r.Err? {
          o := ReportFailure(job, Rollback, "health check failed: " + a.reason + "; rollback failed: " + r.reason);
          return;
        }
        o := Report(job.(state := Failed, phase := RolledBack, message := Reverted),
                    Some(ROLLED_BACK_ERROR));
        return;
      }
      o := Report(job.(state := Succeeded, phase := Complete, message := Updated), None);
    }
  }
}
