// Provisioning over any number of runs, for any IDs, with host failures and crashes anywhere:
// how often each operation takes effect, and what the persisted checkpoints say about it.
module ProvisioningRuns {
  import opened Machine
  import opened FileJobs
  import opened Provisioning

  /** One run: a request, the probes it meets, and the answers to its calls. */
  datatype Attempt = Attempt(id: string, confirm: bool, probes: Probes, script: Script)

  function RunOne(w: World, a: Attempt): (Outcome, World)
  {
    var (outcome, s) := RunJob(Boot(w.(script := a.script)), a.id, a.confirm, a.probes);
    (outcome, s.w)
  }

  function RunAll(w: World, attempts: seq<Attempt>): World
  {
    if attempts == [] then w
    else RunOne(RunAll(w, attempts[..|attempts| - 1]), attempts[|attempts| - 1]).1
  }

  function Crashes(w: World, attempts: seq<Attempt>, id: string): nat
  {
    if attempts == [] then 0
    else
      var earlier, last := attempts[..|attempts| - 1], attempts[|attempts| - 1];
      Crashes(w, earlier, id) + (if last.id == id && RunOne(RunAll(w, earlier), last).0.Crashed? then 1 else 0)
  }

  /** The operations that took effect for one job, in order. */
  function Effects(trace: seq<Effect>, id: string): seq<Checkpoint>
  {
    if trace == [] then []
    else
      var e := trace[|trace| - 1];
      Effects(trace[..|trace| - 1], id) + (if e.id == id then [e.op] else [])
  }

  /** A clean run's operations up to the checkpoints in c. */
  function Clean(c: set<Checkpoint>): seq<Checkpoint>
  {
    (if Backup in c then [Backup] else []) + (if Packages in c then [Packages] else [])
    + (if Configure in c then [Configure] else []) + (if Services in c then [Services] else [])
  }

  /** No checkpoint without the ones before it. */
  predicate PrefixClosed(c: set<Checkpoint>)
  {
    && (Packages in c ==> Backup in c) && (Configure in c ==> Packages in c)
    && (Services in c ==> Configure in c) && (Health in c ==> Services in c)
  }

  function Checkpoints(jobs: Jobs, id: string): set<Checkpoint>
  {
    if id in jobs then jobs[id].completed else {}
  }

  predicate Sound(jobs: Jobs)
  {
    forall id :: id in jobs ==> jobs[id].id == id && PrefixClosed(jobs[id].completed)
                                && (jobs[id].state.Succeeded? <==> Health in jobs[id].completed)
  }

  // ---- What a run forgets ----

  /** A Put that does not land leaves the operations done since the last one off file. */
  function PutForgets(script: Script, ahead: set<Checkpoint>): set<Checkpoint>
  {
    if Lands(0, script) then {} else ahead
  }

  /** Told from the script: the operation that the steps from the i-th on leave done and off file.
      It is one that the process dies in after it took effect, or the one before a Put that does
      not land; `ahead` is what is done and not on file yet. */
  function StepsForget(completed: set<Checkpoint>, i: nat, ahead: set<Checkpoint>, script: Script): set<Checkpoint>
    requires i <= |ORDER|
    decreases |ORDER| - i, 1, script
  {
    if i == |ORDER| then (if Head(script).Dead? then ahead else PutForgets(Tail(script), ahead))
    else if ORDER[i] in completed then StepsForget(completed, i + 1, ahead, script)
    else if !GoodFor(script, 7) then PutForgets(script, ahead)
    else OpForgets(completed, i, Drop(script, 7))
  }

  function OpForgets(completed: set<Checkpoint>, i: nat, script: Script): set<Checkpoint>
    requires i < |ORDER|
    decreases |ORDER| - i, 0, script
  {
    match Head(script)
    case Good => StepsForget(completed + {ORDER[i]}, i + 1, {ORDER[i]}, Tail(script))
    case Bad(_) => {}
    case Dead(applied) => if applied then {ORDER[i]} else {}
  }

  /** Told from the request, the job on file and the script: what a run leaves done and off file. */
  function Forgets(jobs: Jobs, a: Attempt): set<Checkpoint>
  {
    var job := if a.id in jobs then jobs[a.id] else NewJob(a.id);
    if a.id == "" || job.state.Succeeded? || Objection(a.probes).Some? then {}
    else if Backup in job.completed then StepsForget(job.completed, 1, {}, a.script)
    else if Changed(a.probes, PROTECTED) != [] && !a.confirm then {}
    else OpForgets(job.completed, 0, a.script)
  }

  // ---- The bookkeeping of one job ----

  function Once(c: set<Checkpoint>, op: Checkpoint): nat { if op in c && !op.Health? then 1 else 0 }

  /** The effects of a job: each checkpoint once, and whatever was forgotten; exactly the clean
      run's if nothing was. */
  predicate Accounted(effects: seq<Checkpoint>, c: set<Checkpoint>, forgotten: multiset<Checkpoint>)
  {
    && (forall op :: multiset(effects)[op] == forgotten[op] + Once(c, op))
    && (forgotten == multiset{} ==> effects == Clean(c))
  }

  lemma EffectsAppend(trace: seq<Effect>, e: Effect, id: string)
    ensures Effects(trace + [e], id) == Effects(trace, id) + (if e.id == id then [e.op] else [])
  {
    assert (trace + [e])[..|trace|] == trace;
  }

  lemma CleanStep(c: set<Checkpoint>, op: Checkpoint)
    requires !op.Health? && op !in c && PrefixClosed(c) && PrefixClosed(c + {op})
    ensures Clean(c + {op}) == Clean(c) + [op]
  {
  }

  lemma CleanHealth(c: set<Checkpoint>)
    ensures Clean(c + {Health}) == Clean(c)
  {
    var d := c + {Health};
    assert (Backup in d <==> Backup in c) && (Packages in d <==> Packages in c);
    assert (Configure in d <==> Configure in c) && (Services in d <==> Services in c);
  }

  lemma CleanPrefix(c: set<Checkpoint>)
    requires PrefixClosed(c)
    ensures Clean(c) <= ORDER
  {
  }

  /** An operation took effect and its checkpoint was recorded. */
  lemma AccountStep(effects: seq<Checkpoint>, c: set<Checkpoint>, op: Checkpoint, forgotten: multiset<Checkpoint>)
    requires Accounted(effects, c, forgotten) && !op.Health? && op !in c
    requires PrefixClosed(c) && PrefixClosed(c + {op})
    ensures Accounted(effects + [op], c + {op}, forgotten)
  {
    CleanStep(c, op);
    hide Clean, PrefixClosed;
    assert multiset(effects + [op]) == multiset(effects) + multiset{op};
    assert forall other :: other != op ==> Once(c + {op}, other) == Once(c, other);
  }

  /** A death loses the record of what is ahead of the file. */
  lemma AccountDeath(effects: seq<Checkpoint>, c: set<Checkpoint>, ahead: set<Checkpoint>,
                     forgotten: multiset<Checkpoint>)
    requires Accounted(effects, c + ahead, forgotten) && ahead !! c && Health !in ahead
    ensures Accounted(effects, c, forgotten + multiset(ahead))
  {
    assert ahead == {} ==> c + ahead == c && forgotten + multiset(ahead) == forgotten;
    assert ahead != {} ==> |multiset(ahead)| > 0;
  }

  lemma AccountHealth(effects: seq<Checkpoint>, c: set<Checkpoint>, forgotten: multiset<Checkpoint>)
    ensures Accounted(effects, c, forgotten) <==> Accounted(effects, c + {Health}, forgotten)
  {
    CleanHealth(c);
    hide Clean;
    assert forall op :: Once(c, op) == Once(c + {Health}, op);
  }

  // ---- One run ----

  /** What a run for one job leaves alone: other jobs, their effects, checkpoints already there. */
  ghost predicate Grown(jobs: Jobs, trace: seq<Effect>, jobs': Jobs, trace': seq<Effect>, id: string)
  {
    && jobs' - {id} == jobs - {id}
    && Checkpoints(jobs, id) <= Checkpoints(jobs', id)
    && (forall other :: other != id ==> Effects(trace', other) == Effects(trace, other))
  }

  /** In the middle of a run that started with these jobs and this trace: the job in hand is
      ahead of the persisted one by exactly these operations. */
  ghost predicate Midway(jobs: Jobs, trace: seq<Effect>, s: Store, job: Job, ahead: set<Checkpoint>,
                         forgotten: multiset<Checkpoint>)
  {
    && InStep(s) && Sound(s.jobs) && Grown(jobs, trace, s.jobs, s.w.trace, job.id)
    && PrefixClosed(job.completed) && Health !in job.completed
    && job.completed == Checkpoints(s.jobs, job.id) + ahead
    && ahead !! Checkpoints(s.jobs, job.id) && Health !in ahead
    && Accounted(Effects(s.w.trace, job.id), job.completed, forgotten)
  }

  /** At the end of a run, for what a later process will find on file. */
  ghost predicate Over(jobs: Jobs, trace: seq<Effect>, o: Outcome, s: Store, id: string,
                       forgotten: multiset<Checkpoint>)
  {
    && Load(s.w.live).Some? && Sound(Load(s.w.live).value)
    && (!o.Crashed? ==> InStep(s))
    && (o.Finished? ==> id in s.jobs && s.jobs[id] == o.job)
    && Grown(jobs, trace, Load(s.w.live).value, s.w.trace, id)
    && Accounted(Effects(s.w.trace, id), Checkpoints(Load(s.w.live).value, id), forgotten)
  }

  lemma DeathIsOver(jobs: Jobs, trace: seq<Effect>, s: Store, job: Job, ahead: set<Checkpoint>,
                    forgotten: multiset<Checkpoint>)
    requires Midway(jobs, trace, s, job, ahead, forgotten)
    ensures Over(jobs, trace, Crashed, s, job.id, forgotten + multiset(ahead))
  {
    AccountDeath(Effects(s.w.trace, job.id), Checkpoints(s.jobs, job.id), ahead, forgotten);
  }

  /** A job put in the middle of a run; `done` is what it is to say. */
  predicate Puttable(job: Job, done: Job)
  {
    && done.id == job.id && job.completed <= done.completed <= job.completed + {Health}
    && PrefixClosed(done.completed) && (done.state.Succeeded? <==> Health in done.completed)
  }

  lemma PutSound(jobs: Jobs, trace: seq<Effect>, s: Store, job: Job, ahead: set<Checkpoint>,
                 forgotten: multiset<Checkpoint>, done: Job)
    requires Midway(jobs, trace, s, job, ahead, forgotten) && Puttable(job, done)
    ensures Sound(s.jobs[job.id := done]) && Grown(jobs, trace, s.jobs[job.id := done], s.w.trace, job.id)
  {
    hide Accounted, Effects, PrefixClosed, InStep;
    assert s.jobs[job.id := done] - {job.id} == s.jobs - {job.id};
  }

  lemma PutAccounted(effects: seq<Checkpoint>, job: Job, done: Job, forgotten: multiset<Checkpoint>)
    requires Accounted(effects, job.completed, forgotten) && Puttable(job, done)
    ensures Accounted(effects, done.completed, forgotten)
  {
    AccountHealth(effects, job.completed, forgotten);
    assert done.completed == job.completed || done.completed == job.completed + {Health};
  }

  /** A Put in the middle of a run: it returns with the job on file, or the process is gone, and
      what was ahead of the file is forgotten unless the Put landed. */
  lemma PutMidway(jobs: Jobs, trace: seq<Effect>, s: Store, job: Job, ahead: set<Checkpoint>,
                  forgotten: multiset<Checkpoint>, done: Job)
    requires Midway(jobs, trace, s, job, ahead, forgotten) && Puttable(job, done)
    ensures var (ok, s') := Replaced(s, done);
            && (ok <==> GoodFor(s.w.script, 7))
            && (ok ==> s'.w.script == Drop(s.w.script, 7) && PutForgets(s.w.script, ahead) == {})
            && Over(jobs, trace, if ok then Finished(done) else Crashed, s', job.id,
                    forgotten + multiset(PutForgets(s.w.script, ahead)))
            && (ok && done.completed == job.completed ==> Midway(jobs, trace, s', done, {}, forgotten))
  {
    hide Accounted, Replaced, Effects, PrefixClosed, Lands, GoodFor, Drop, Sound, Grown;
    var effects := Effects(s.w.trace, job.id);
    PutRefinesMap(s, done);
    PutSound(jobs, trace, s, job, ahead, forgotten, done);
    PutAccounted(effects, job, done, forgotten);
    AccountDeath(effects, Checkpoints(s.jobs, job.id), ahead, forgotten);
    assert forgotten + multiset({}) == forgotten;
  }

  lemma ConcludeOver(jobs: Jobs, trace: seq<Effect>, s: Store, job: Job, ahead: set<Checkpoint>,
                     forgotten: multiset<Checkpoint>, done: Job)
    requires Midway(jobs, trace, s, job, ahead, forgotten) && Puttable(job, done)
    ensures var (o, s') := Conclude(s, done);
            Over(jobs, trace, o, s', job.id, forgotten + multiset(PutForgets(s.w.script, ahead)))
  {
    PutMidway(jobs, trace, s, job, ahead, forgotten, done);
  }

  /** Asking the host for something that is not counted. */
  lemma AskedMidway(jobs: Jobs, trace: seq<Effect>, s: Store, job: Job, ahead: set<Checkpoint>,
                    forgotten: multiset<Checkpoint>)
    requires Midway(jobs, trace, s, job, ahead, forgotten)
    ensures Midway(jobs, trace, s.(w := Asked(s.w)), job, ahead, forgotten)
  {
  }

  lemma PerformedEffects(w: World, id: string, op: Checkpoint)
    ensures Effects(Performed(w, id, op).trace, id) ==
            Effects(w.trace, id) + (if TakesEffect(NextAnswer(w)) then [op] else [])
    ensures forall other :: other != id ==> Effects(Performed(w, id, op).trace, other) == Effects(w.trace, other)
  {
    forall other: string ensures
      Effects(w.trace + [Effect(id, op)], other) == Effects(w.trace, other) + (if id == other then [op] else []) {
      EffectsAppend(w.trace, Effect(id, op), other);
    }
  }

  /** An operation on a job that is on file as it is in hand. */
  lemma OperateMidway(jobs: Jobs, trace: seq<Effect>, s: Store, job: Job, op: Checkpoint,
                      forgotten: multiset<Checkpoint>)
    requires Midway(jobs, trace, s, job, {}, forgotten)
    requires !op.Health? && op !in job.completed && PrefixClosed(job.completed + {op})
    ensures var (a, s') := Operate(s, job.id, op);
            && (a.Good? ==> Midway(jobs, trace, s', job.(completed := job.completed + {op}), {op}, forgotten))
            && (a.Bad? ==> Midway(jobs, trace, s', job, {}, forgotten))
            && (a.Dead? ==> Over(jobs, trace, Crashed, s', job.id,
                                 forgotten + multiset(if a.applied then {op} else {})))
  {
    hide Accounted, Effects, Sound;
    var (a, s') := Operate(s, job.id, op);
    var effects := Effects(s.w.trace, job.id);
    PerformedEffects(s.w, job.id, op);
    AccountStep(effects, job.completed, op, forgotten);
    AccountDeath(effects + [op], job.completed, {op}, forgotten);
    assert s'.jobs == s.jobs && s'.w.live == s.w.live;
    assert effects + [] == effects && forgotten + multiset({}) == forgotten && job.completed + {} == job.completed;
  }

  predicate Upto(c: set<Checkpoint>, i: nat)
  {
    forall j :: 0 <= j < i && j < |ORDER| ==> ORDER[j] in c
  }

  lemma HealthOver(jobs: Jobs, trace: seq<Effect>, s: Store, job: Job, ahead: set<Checkpoint>,
                   forgotten: multiset<Checkpoint>)
    requires Midway(jobs, trace, s, job, ahead, forgotten) && Upto(job.completed, |ORDER|)
    ensures var (o, s') := CheckHealth(s, job);
            Over(jobs, trace, o, s', job.id,
                 forgotten + multiset(StepsForget(job.completed, |ORDER|, ahead, s.w.script)))
  {
    hide Over, Accounted, Replaced, Sound, Effects, Lands;
    AskedMidway(jobs, trace, s, job, ahead, forgotten);
    var s' := s.(w := Asked(s.w));
    assert ORDER[3] in job.completed;
    match NextAnswer(s.w)
    case Good =>
      ConcludeOver(jobs, trace, s', job, ahead, forgotten,
                   job.(completed := job.completed + {Health}, state := Succeeded, phase := Complete,
                        message := Provisioned));
    case Bad(reason) =>
      ConcludeOver(jobs, trace, s', job, ahead, forgotten,
                   job.(state := Failed, phase := At(Health), message := Told(reason)));
    case Dead(_) => DeathIsOver(jobs, trace, s', job, ahead, forgotten);
  }

  lemma Unfinished(jobs: Jobs, trace: seq<Effect>, s: Store, job: Job, ahead: set<Checkpoint>,
                   forgotten: multiset<Checkpoint>)
    requires Midway(jobs, trace, s, job, ahead, forgotten)
    ensures PrefixClosed(job.completed) && Health !in job.completed
  {
  }

  lemma MidwayNext(jobs: Jobs, trace: seq<Effect>, s: Store, job: Job, ahead: set<Checkpoint>, i: nat,
                   forgotten: multiset<Checkpoint>)
    requires 1 <= i < |ORDER| && Midway(jobs, trace, s, job, ahead, forgotten) && Upto(job.completed, i)
    ensures !ORDER[i].Health? && PrefixClosed(job.completed + {ORDER[i]})
    ensures PrefixClosed(job.completed) && Health !in job.completed
  {
    assert ORDER[i - 1] in job.completed;
  }

  lemma {:induction false} StepsOver(jobs: Jobs, trace: seq<Effect>, s: Store, job: Job, ahead: set<Checkpoint>, i: nat,
                                     forgotten: multiset<Checkpoint>)
    requires 1 <= i <= |ORDER| && Midway(jobs, trace, s, job, ahead, forgotten) && Upto(job.completed, i)
    requires !job.state.Succeeded?
    ensures var (o, s') := Steps(s, job, i);
            Over(jobs, trace, o, s', job.id, forgotten + multiset(StepsForget(job.completed, i, ahead, s.w.script)))
    decreases |ORDER| - i, 1
  {
    hide Midway, Over, Accounted, Replaced, Sound, Lands, GoodFor, Drop;
    if i == |ORDER| {
      HealthOver(jobs, trace, s, job, ahead, forgotten);
    } else if ORDER[i] in job.completed {
      StepsOver(jobs, trace, s, job, ahead, i + 1, forgotten);
    } else {
      var job1 := job.(state := Running, phase := At(ORDER[i]));
      MidwayNext(jobs, trace, s, job, ahead, i, forgotten);
      PutMidway(jobs, trace, s, job, ahead, forgotten, job1);
      var (ok, s1) := Replaced(s, job1);
      if ok {
        OperationOver(jobs, trace, s1, job1, i, forgotten);
      }
    }
  }

  /** The i-th operation and the steps after it. */
  lemma {:induction false} OperationOver(jobs: Jobs, trace: seq<Effect>, s: Store, job: Job, i: nat,
                                         forgotten: multiset<Checkpoint>)
    requires i < |ORDER| && Midway(jobs, trace, s, job, {}, forgotten) && Upto(job.completed, i)
    requires !job.state.Succeeded? && ORDER[i] !in job.completed && PrefixClosed(job.completed + {ORDER[i]})
    ensures var (o, s') := OperateFrom(s, job, i);
            Over(jobs, trace, o, s', job.id, forgotten + multiset(OpForgets(job.completed, i, s.w.script)))
    decreases |ORDER| - i, 0
  {
    hide Midway, Over, Accounted, Replaced, Sound, Lands, PrefixClosed;
    Unfinished(jobs, trace, s, job, {}, forgotten);
    OperateMidway(jobs, trace, s, job, ORDER[i], forgotten);
    var (a, s') := Operate(s, job.id, ORDER[i]);
    match a
    case Good =>
      StepsOver(jobs, trace, s', job.(completed := job.completed + {ORDER[i]}), {ORDER[i]}, i + 1, forgotten);
    case Bad(reason) =>
      ConcludeOver(jobs, trace, s', job, {}, forgotten,
                   job.(state := Failed, phase := At(ORDER[i]), message := Told(reason)));
    case Dead(_) =>
  }

  lemma StartsMidway(s: Store, a: Attempt, forgotten: multiset<Checkpoint>)
    requires InStep(s) && Sound(s.jobs) && Accounted(Effects(s.w.trace, a.id), Checkpoints(s.jobs, a.id), forgotten)
    ensures var job := if a.id in s.jobs then s.jobs[a.id] else NewJob(a.id);
            && job.id == a.id
            && (!job.state.Succeeded? ==> Midway(s.jobs, s.w.trace, s, job, {}, forgotten))
            && (Backup !in job.completed ==> PrefixClosed(job.completed + {Backup}))
  {
    hide Accounted, Effects;
    var job := if a.id in s.jobs then s.jobs[a.id] else NewJob(a.id);
    assert job.completed + {} == job.completed;
  }

  lemma NothingRun(s: Store, a: Attempt, forgotten: multiset<Checkpoint>)
    requires InStep(s) && Sound(s.jobs) && Accounted(Effects(s.w.trace, a.id), Checkpoints(s.jobs, a.id), forgotten)
    ensures Over(s.jobs, s.w.trace, NoID, s, a.id, forgotten)
    ensures a.id in s.jobs ==> Over(s.jobs, s.w.trace, Finished(s.jobs[a.id]), s, a.id, forgotten)
  {
  }

  lemma RunJobOver(s: Store, a: Attempt, forgotten: multiset<Checkpoint>)
    requires InStep(s) && Sound(s.jobs) && s.w.script == a.script
    requires Accounted(Effects(s.w.trace, a.id), Checkpoints(s.jobs, a.id), forgotten)
    ensures var (o, s') := RunJob(s, a.id, a.confirm, a.probes);
            Over(s.jobs, s.w.trace, o, s', a.id, forgotten + multiset(Forgets(s.jobs, a)))
  {
    hide Accounted, Effects, Objection, Changed, Steps, StepsForget, OpForgets, OperateFrom, Lands, Midway, Over, Sound,
         PrefixClosed;
    var id, job := a.id, if a.id in s.jobs then s.jobs[a.id] else NewJob(a.id);
    assert forgotten + multiset({}) == forgotten;
    if id == "" || job.state.Succeeded? {
      NothingRun(s, a, forgotten);
    } else {
      StartsMidway(s, a, forgotten);
      Unfinished(s.jobs, s.w.trace, s, job, {}, forgotten);
      if Objection(a.probes).Some? {
        ConcludeOver(s.jobs, s.w.trace, s, job, {}, forgotten,
                     job.(state := Failed, phase := Preflight, message := Unfit(Objection(a.probes).value)));
      } else if Backup in job.completed {
        assert Upto(job.completed, 1);
        StepsOver(s.jobs, s.w.trace, s, job, {}, 1, forgotten);
      } else if Changed(a.probes, PROTECTED) != [] && !a.confirm {
        ConcludeOver(s.jobs, s.w.trace, s, job, {}, forgotten,
                     job.(state := NeedsInput, phase := ConfirmConfig, message := ConfirmFirst,
                          changedPaths := Changed(a.probes, PROTECTED)));
      } else {
        OperationOver(s.jobs, s.w.trace, s, job, 0, forgotten);
      }
    }
  }

  // ---- Every sequence of runs ----

  ghost predicate Fresh(w: World) { w.live.None? && w.trace == [] }

  /** What is on file for a job after some runs. */
  function OnFile(w: World, attempts: seq<Attempt>): Jobs { Boot(RunAll(w, attempts)).jobs }

  /** The operations that the runs for one job left done and off file, one for each such run. */
  function Forgotten(w: World, attempts: seq<Attempt>, id: string): multiset<Checkpoint>
  {
    if attempts == [] then multiset{}
    else
      var earlier, last := attempts[..|attempts| - 1], attempts[|attempts| - 1];
      Forgotten(w, earlier, id) + (if last.id == id then multiset(Forgets(OnFile(w, earlier), last)) else multiset{})
  }

  ghost predicate Ledger(w: World, attempts: seq<Attempt>, id: string)
  {
    && Load(RunAll(w, attempts).live).Some? && Sound(OnFile(w, attempts))
    && Accounted(Effects(RunAll(w, attempts).trace, id), Checkpoints(OnFile(w, attempts), id),
                 Forgotten(w, attempts, id))
  }

  lemma LastRun(w: World, attempts: seq<Attempt>)
    requires attempts != [] && Ledger(w, attempts[..|attempts| - 1], attempts[|attempts| - 1].id)
    ensures var before, a := RunAll(w, attempts[..|attempts| - 1]), attempts[|attempts| - 1];
            var r := RunJob(Boot(before.(script := a.script)), a.id, a.confirm, a.probes);
            && RunAll(w, attempts) == r.1.w && RunOne(before, a).0 == r.0
            && Over(Boot(before).jobs, before.trace, r.0, r.1, a.id, Forgotten(w, attempts, a.id))
  {
    var before, a := RunAll(w, attempts[..|attempts| - 1]), attempts[|attempts| - 1];
    RunJobOver(Boot(before.(script := a.script)), a, Forgotten(w, attempts[..|attempts| - 1], a.id));
  }

  lemma {:induction false} LedgerHolds(w: World, attempts: seq<Attempt>, id: string)
    requires Fresh(w)
    ensures Ledger(w, attempts, id)
    decreases |attempts|
  {
    hide RunJob, Accounted, Forgets;
    if attempts == [] {
      AccountNone();
    } else {
      var earlier, last := attempts[..|attempts| - 1], attempts[|attempts| - 1];
      LedgerHolds(w, earlier, id);
      LedgerHolds(w, earlier, last.id);
      LastRun(w, attempts);
      if last.id != id {
        OthersUntouched(OnFile(w, earlier), OnFile(w, attempts), last.id, id);
        assert Forgotten(w, attempts, id) == Forgotten(w, earlier, id);
      }
    }
  }

  lemma AccountNone()
    ensures Accounted([], {}, multiset{})
  {
  }

  lemma OthersUntouched(jobs: Jobs, jobs': Jobs, id: string, other: string)
    requires jobs' - {id} == jobs - {id} && other != id
    ensures other in jobs' <==> other in jobs
    ensures other in jobs ==> jobs'[other] == jobs[other]
  {
    assert other in jobs <==> other in jobs - {id};
    assert other in jobs' <==> other in jobs' - {id};
    if other in jobs {
      assert (jobs' - {id})[other] == (jobs - {id})[other];
    }
  }

  // ---- Exactly which operations are repeated ----

  lemma CleanOnce(c: set<Checkpoint>, op: Checkpoint)
    ensures multiset(Clean(c))[op] == Once(c, op)
  {
  }

  const OPS: set<Checkpoint> := {Backup, Packages, Configure, Services}

  lemma OnceAll(c: set<Checkpoint>)
    ensures forall op :: multiset(c * OPS)[op] == Once(c, op)
    ensures |c * OPS| <= 4
  {
    Subset(c * OPS, OPS);
    assert |OPS| == 4;
  }

  /** However the runs went: an operation took effect once for its checkpoint on file, and once
      for every run that left it done and off file. */
  lemma EffectsExactly(w: World, attempts: seq<Attempt>, id: string, op: Checkpoint)
    requires Fresh(w)
    ensures multiset(Effects(RunAll(w, attempts).trace, id))[op] ==
            Forgotten(w, attempts, id)[op] + Once(Checkpoints(OnFile(w, attempts), id), op)
  {
    LedgerHolds(w, attempts, id);
  }

  /** So the effects are those of one clean run, as far as the checkpoints on file say, exactly
      when no run did so. The checkpoints on file are always prefix-closed. */
  lemma CleanIffNothingForgotten(w: World, attempts: seq<Attempt>, id: string)
    requires Fresh(w)
    ensures var effects, c := Effects(RunAll(w, attempts).trace, id), Checkpoints(OnFile(w, attempts), id);
            && PrefixClosed(c) && Clean(c) <= ORDER
            && (effects == Clean(c) <==> Forgotten(w, attempts, id) == multiset{})
  {
    hide RunAll, Forgotten, Effects, Once, Clean;
    LedgerHolds(w, attempts, id);
    var c := Checkpoints(OnFile(w, attempts), id);
    CleanPrefix(c);
    forall op ensures multiset(Clean(c))[op] == Once(c, op) { CleanOnce(c, op); }
  }

  /** Only a run that dies forgets anything, and then one operation. */
  lemma {:induction false} StepsForgetOne(s: Store, job: Job, i: nat, ahead: set<Checkpoint>)
    requires i <= |ORDER| && |ahead| <= 1
    ensures |StepsForget(job.completed, i, ahead, s.w.script)| <= 1
    ensures StepsForget(job.completed, i, ahead, s.w.script) != {} ==> Steps(s, job, i).0.Crashed?
    decreases |ORDER| - i, 1
  {
    hide Replaced, Drop, OperateFrom, OpForgets, GoodFor, Lands;
    if i == |ORDER| {
      PutOutcome(s.(w := Asked(s.w)));
    } else if ORDER[i] in job.completed {
      StepsForgetOne(s, job, i + 1, ahead);
    } else {
      PutOutcome(s);
      var job1 := job.(state := Running, phase := At(ORDER[i]));
      OpForgetsOne(Replaced(s, job1).1, job1, i);
    }
  }

  lemma PutOutcome(s: Store)
    ensures forall job :: Replaced(s, job).0 <==> GoodFor(s.w.script, 7)
    ensures forall job :: Replaced(s, job).0 ==>
              Lands(0, s.w.script) && Replaced(s, job).1.w.script == Drop(s.w.script, 7)
  {
    forall job: Job ensures Replaced(s, job).0 <==> GoodFor(s.w.script, 7)
      ensures Replaced(s, job).0 ==> Lands(0, s.w.script) && Replaced(s, job).1.w.script == Drop(s.w.script, 7) {
      FlushAtomic(s.w, s.jobs[job.id := job]);
    }
  }

  lemma {:induction false} OpForgetsOne(s: Store, job: Job, i: nat)
    requires i < |ORDER|
    ensures |OpForgets(job.completed, i, s.w.script)| <= 1
    ensures OpForgets(job.completed, i, s.w.script) != {} ==> OperateFrom(s, job, i).0.Crashed?
    decreases |ORDER| - i, 0
  {
    hide Replaced, Steps, StepsForget;
    if NextAnswer(s.w).Good? {
      StepsForgetOne(Operate(s, job.id, ORDER[i]).1, job.(completed := job.completed + {ORDER[i]}), i + 1, {ORDER[i]});
    }
  }

  lemma ForgetsOne(s: Store, a: Attempt)
    requires s.w.script == a.script
    ensures |Forgets(s.jobs, a)| <= 1
    ensures Forgets(s.jobs, a) != {} ==> RunJob(s, a.id, a.confirm, a.probes).0.Crashed?
  {
    hide Replaced, Steps, StepsForget, OperateFrom, OpForgets, Objection, Changed;
    var job := if a.id in s.jobs then s.jobs[a.id] else NewJob(a.id);
    StepsForgetOne(s, job, 1, {});
    OpForgetsOne(s, job, 0);
  }

  lemma {:induction false} ForgottenCrashes(w: World, attempts: seq<Attempt>, id: string)
    ensures |Forgotten(w, attempts, id)| <= Crashes(w, attempts, id)
    decreases |attempts|
  {
    hide RunJob, Forgets;
    if attempts != [] {
      var earlier, last := attempts[..|attempts| - 1], attempts[|attempts| - 1];
      ForgottenCrashes(w, earlier, id);
      ForgetsOne(Boot(RunAll(w, earlier).(script := last.script)), last);
    }
  }

  /** In particular an operation takes effect at most once more than the process crashed in a run
      of that job ... */
  lemma OncePlusCrashes(w: World, attempts: seq<Attempt>, id: string, op: Checkpoint)
    requires Fresh(w)
    ensures multiset(Effects(RunAll(w, attempts).trace, id))[op] <= 1 + Crashes(w, attempts, id)
  {
    EffectsExactly(w, attempts, id, op);
    ForgottenCrashes(w, attempts, id);
    var f := Forgotten(w, attempts, id);
    assert f[op] <= |f| by { assert f == f[op := 0] + multiset{}[op := f[op]]; }
  }

  /** ... and all four together take effect at most four times more. */
  lemma FourPlusCrashes(w: World, attempts: seq<Attempt>, id: string)
    requires Fresh(w)
    ensures |Effects(RunAll(w, attempts).trace, id)| <= 4 + Crashes(w, attempts, id)
  {
    hide RunAll, Forgotten, Effects, Crashes;
    ForgottenCrashes(w, attempts, id);
    var effects, f := Effects(RunAll(w, attempts).trace, id), Forgotten(w, attempts, id);
    var c := Checkpoints(OnFile(w, attempts), id);
    forall op ensures multiset(effects)[op] == f[op] + Once(c, op) { EffectsExactly(w, attempts, id, op); }
    OnceAll(c);
    assert multiset(effects) == f + multiset(c * OPS);
  }

  lemma {:induction false} Subset(a: set<Checkpoint>, b: set<Checkpoint>)
    requires a <= b
    ensures |a| <= |b|
    decreases a
  {
    if a != {} {
      var x :| x in a;
      Subset(a - {x}, b - {x});
    }
  }

  /** Without crashes nothing is repeated. */
  lemma ResumesLikeOneRun(w: World, attempts: seq<Attempt>, id: string)
    requires Fresh(w)
    ensures PrefixClosed(Checkpoints(OnFile(w, attempts), id))
    ensures Crashes(w, attempts, id) == 0 ==>
              Effects(RunAll(w, attempts).trace, id) == Clean(Checkpoints(OnFile(w, attempts), id)) <= ORDER
  {
    CleanIffNothingForgotten(w, attempts, id);
    ForgottenCrashes(w, attempts, id);
  }

  /** Checkpoints on file are never lost again. */
  lemma {:induction false} CheckpointsStay(w: World, attempts: seq<Attempt>, k: nat, id: string)
    requires Fresh(w) && k <= |attempts|
    ensures Checkpoints(OnFile(w, attempts[..k]), id) <= Checkpoints(OnFile(w, attempts), id)
    decreases |attempts|
  {
    if k == |attempts| {
      assert attempts[..k] == attempts;
    } else {
      var earlier, last := attempts[..|attempts| - 1], attempts[|attempts| - 1];
      assert earlier[..k] == attempts[..k];
      CheckpointsStay(w, earlier, k, id);
      LedgerHolds(w, earlier, last.id);
      LastRun(w, attempts);
      if last.id != id {
        OthersUntouched(OnFile(w, earlier), OnFile(w, attempts), last.id, id);
      }
    }
  }

  ghost predicate HasSucceeded(w: World, attempts: seq<Attempt>, id: string)
  {
    id in OnFile(w, attempts) && OnFile(w, attempts)[id].state.Succeeded?
  }

  /** Succeeded is final: the job record never changes again and nothing more is done for it. */
  lemma {:induction false} SucceededIsFinal(w: World, attempts: seq<Attempt>, k: nat, id: string)
    requires Fresh(w) && k <= |attempts| && HasSucceeded(w, attempts[..k], id)
    ensures HasSucceeded(w, attempts, id) && OnFile(w, attempts)[id] == OnFile(w, attempts[..k])[id]
    ensures Effects(RunAll(w, attempts).trace, id) == Effects(RunAll(w, attempts[..k]).trace, id)
    decreases |attempts|
  {
    if k == |attempts| {
      assert attempts[..k] == attempts;
    } else {
      var earlier, last := attempts[..|attempts| - 1], attempts[|attempts| - 1];
      assert earlier[..k] == attempts[..k];
      SucceededIsFinal(w, earlier, k, id);
      LedgerHolds(w, earlier, last.id);
      LastRun(w, attempts);
      if last.id != id {
        OthersUntouched(OnFile(w, earlier), OnFile(w, attempts), last.id, id);
      } else {
        var w0 := RunAll(w, earlier).(script := last.script);
        assert RunJob(Boot(w0), id, last.confirm, last.probes).1.w == w0;
      }
    }
  }

  // ---- Completion ----

  lemma {:induction false} StepsGood(s: Store, job: Job, i: nat)
    requires i <= |ORDER| && AllGood(s.w)
    ensures Steps(s, job, i).0.Finished? && Steps(s, job, i).0.job.state.Succeeded?
    decreases |ORDER| - i, 1
  {
    hide Replaced, OperateFrom;
    if i == |ORDER| {
      ReplacedGood(s.(w := Asked(s.w)), job.(completed := job.completed + {Health}, state := Succeeded,
                                            phase := Complete, message := Provisioned));
    } else if ORDER[i] in job.completed {
      StepsGood(s, job, i + 1);
    } else {
      var job1 := job.(state := Running, phase := At(ORDER[i]));
      ReplacedGood(s, job1);
      OperateGood(Replaced(s, job1).1, job1, i);
    }
  }

  lemma {:induction false} OperateGood(s: Store, job: Job, i: nat)
    requires i < |ORDER| && AllGood(s.w)
    ensures OperateFrom(s, job, i).0.Finished? && OperateFrom(s, job, i).0.job.state.Succeeded?
    decreases |ORDER| - i, 0
  {
    hide Replaced, Steps;
    StepsGood(Operate(s, job.id, ORDER[i]).1, job.(completed := job.completed + {ORDER[i]}), i + 1);
  }

  /** With an ID, a passing preflight and an answering host, a run succeeds unless it stops to ask:
      that is exactly when the backup is still to come, a protected file exists, and the request
      does not confirm. */
  lemma GoodRunSucceeds(s: Store, id: string, confirm: bool, probes: Probes)
    requires id != "" && AllGood(s.w) && Objection(probes).None?
    ensures var o := RunJob(s, id, confirm, probes).0;
            var job := if id in s.jobs then s.jobs[id] else NewJob(id);
            && o.Finished?
            && o.job.state == (if job.state.Succeeded? || confirm || Changed(probes, PROTECTED) == []
                                  || Backup in job.completed then Succeeded else NeedsInput)
  {
    hide Steps, OperateFrom, Replaced, Changed, Objection;
    var job := if id in s.jobs then s.jobs[id] else NewJob(id);
    if !job.state.Succeeded? {
      if Backup in job.completed {
        StepsGood(s, job, 1);
      } else if Changed(probes, PROTECTED) != [] && !confirm {
        ReplacedGood(s, job.(state := NeedsInput, phase := ConfirmConfig, message := ConfirmFirst,
                             changedPaths := Changed(probes, PROTECTED)));
      } else {
        OperateGood(s, job, 0);
      }
    }
  }

  // ---- Not exactly once ----

  const PASSING := Probes("arm64", true, 4096, true, 1, true, {})

  /** A run that is killed as its backup completes, and one that nothing disturbs. */
  function Killed(id: string): Attempt { Attempt(id, true, PASSING, Then(Dead(true), Obliging)) }

  function Undisturbed(id: string): Attempt { Attempt(id, true, PASSING, Obliging) }

  function Repeats(id: string, n: nat): seq<Attempt> { seq(n, _ => Killed(id)) }

  lemma {:induction false} KilledRuns(w: World, id: string, n: nat)
    requires Fresh(w) && id != ""
    ensures Crashes(w, Repeats(id, n), id) == n && RunAll(w, Repeats(id, n)).live.None?
    ensures Forgotten(w, Repeats(id, n), id) == multiset{}[Backup := n]
    decreases n
  {
    if n > 0 {
      assert Repeats(id, n)[..n - 1] == Repeats(id, n - 1);
      KilledRuns(w, id, n - 1);
      assert Forgets(map[], Killed(id)) == {Backup};
    }
  }

  lemma FinishingRun(w: World, earlier: seq<Attempt>, id: string)
    requires Fresh(w) && id != "" && RunAll(w, earlier).live.None?
    ensures var attempts := earlier + [Undisturbed(id)];
            && HasSucceeded(w, attempts, id) && Crashes(w, attempts, id) == Crashes(w, earlier, id)
            && Forgotten(w, attempts, id) == Forgotten(w, earlier, id)
  {
    var attempts, a := earlier + [Undisturbed(id)], Undisturbed(id);
    assert attempts[..|attempts| - 1] == earlier;
    hide RunJob, Forgets, Accounted, Sound;
    var s := Boot(RunAll(w, earlier).(script := a.script));
    assert Objection(PASSING).None? && Changed(PASSING, PROTECTED) == [];
    GoodRunSucceeds(s, id, true, PASSING);
    ForgetsOne(s, a);
    LedgerHolds(w, earlier, id);
    LastRun(w, attempts);
  }

  /** Crashes do repeat operations, as often as the bound allows: n runs that are killed as the
      backup completes and one that is not back up n + 1 times, with n + 4 effects in all. */
  lemma CrashesRepeat(w: World, id: string, n: nat)
    requires Fresh(w) && id != ""
    ensures var attempts := Repeats(id, n) + [Undisturbed(id)];
            && HasSucceeded(w, attempts, id) && Crashes(w, attempts, id) == n
            && multiset(Effects(RunAll(w, attempts).trace, id))[Backup] == n + 1
            && |Effects(RunAll(w, attempts).trace, id)| == n + 4
  {
    hide RunAll, Forgotten, Effects, Crashes, Accounted;
    var attempts := Repeats(id, n) + [Undisturbed(id)];
    KilledRuns(w, id, n);
    FinishingRun(w, Repeats(id, n), id);
    LedgerHolds(w, attempts, id);
    forall op ensures multiset(Effects(RunAll(w, attempts).trace, id))[op] ==
                      (if op == Backup then n else 0) + Once(Checkpoints(OnFile(w, attempts), id), op) {
      EffectsExactly(w, attempts, id, op);
    }
    CountAll(Effects(RunAll(w, attempts).trace, id), Checkpoints(OnFile(w, attempts), id), n);
  }

  lemma CountAll(effects: seq<Checkpoint>, c: set<Checkpoint>, n: nat)
    requires Health in c && PrefixClosed(c)
    requires forall op :: multiset(effects)[op] == (if op == Backup then n else 0) + Once(c, op)
    ensures multiset(effects)[Backup] == n + 1 && |effects| == n + 4
  {
    OnceAll(c);
    assert c * OPS == OPS && |OPS| == 4;
    assert multiset(effects) == multiset{}[Backup := n] + multiset(c * OPS);
  }
}
