// The persisted job store (bottle-agent/internal/lifecycle/file_jobs.go): a map in memory and
// a file that is only ever replaced by renaming a complete temporary file over it.
module FileJobs {
  import opened Prelude
  import opened Machine

  datatype FileCall = Mkdir | CreateTemp | Chmod | Write | Sync | Close | Rename

  const FLUSH: seq<FileCall> := [Mkdir, CreateTemp, Chmod, Write, Sync, Close, Rename]

  datatype Status = Done | Refused | Died

  // ---- One system call ----

  function Effected(w: World, call: FileCall, name: nat, jobs: Jobs): World
  {
    match call
    case CreateTemp => w.(temps := w.temps[name := Torn], nextTemp := name + 1)
    case Write => w.(temps := w.temps[name := Unsynced(jobs)])
    case Sync =>
      if name in w.temps && w.temps[name].Unsynced?
      then w.(temps := w.temps[name := Encoded(w.temps[name].jobs)]) else w
    case Rename =>
      if name in w.temps then w.(live := Some(w.temps[name]), temps := w.temps - {name}) else w
    case _ => w
  }

  /** What a call that did not complete may leave: a write may stop half way. */
  function Botched(w: World, call: FileCall, name: nat): World
  {
    if call == Write then w.(temps := w.temps[name := Torn]) else w
  }

  /** The deferred removal of the temporary file. */
  function Removed(w: World, name: nat): World { w.(temps := w.temps - {name}) }

  function Call(w: World, call: FileCall, name: nat, jobs: Jobs): World
  {
    if TakesEffect(NextAnswer(w)) then Effected(Asked(w), call, name, jobs) else Botched(Asked(w), call, name)
  }

  // ---- flush ----

  /** The calls from the i-th on. */
  function FlushFrom(i: nat, w: World, name: nat, jobs: Jobs): (Status, World)
    requires i <= |FLUSH|
    decreases |FLUSH| - i, w.nextTemp  // the world in it keeps Dafny from unrolling a flush whole
  {
    if i == |FLUSH| then (Done, Removed(w, name))
    else match NextAnswer(w)
      case Good => FlushFrom(i + 1, Call(w, FLUSH[i], name, jobs), name, jobs)
      case Bad(_) => (Refused, Removed(Call(w, FLUSH[i], name, jobs), name))
      case Dead(_) => (Died, Call(w, FLUSH[i], name, jobs))
  }

  function Flush(w: World, jobs: Jobs): (Status, World)
  {
    FlushFrom(0, w, w.nextTemp, jobs)
  }

  /** How far the temporary file has come before the i-th call. */
  predicate Prepared(i: nat, w: World, name: nat, jobs: Jobs)
  {
    && (4 <= i < 7 ==> name in w.temps && w.temps[name] == if i == 4 then Unsynced(jobs) else Encoded(jobs))
    && (7 <= i ==> w.live == Some(Encoded(jobs)))
  }

  /** Whether a flush that has come to its i-th call will replace the file: every call before the
      rename is done, and the rename takes effect. */
  predicate Lands(i: nat, s: Script)
    requires i < |FLUSH|
    decreases |FLUSH| - i, s
  {
    if FLUSH[i].Rename? then TakesEffect(Head(s)) else Head(s).Good? && Lands(i + 1, Tail(s))
  }

  lemma CallKeeps(i: nat, w: World, name: nat, jobs: Jobs)
    requires i < |FLUSH| && Prepared(i, w, name, jobs)
    ensures var w' := Call(w, FLUSH[i], name, jobs);
            && (NextAnswer(w).Good? ==> Prepared(i + 1, w', name, jobs))
            && w'.live == (if FLUSH[i].Rename? && TakesEffect(NextAnswer(w)) then Some(Encoded(jobs)) else w.live)
            && w'.script == Tail(w.script) && w'.trace == w.trace && w'.tree == w.tree
            && w'.temps - {name} == w.temps - {name}
  {
  }

  /** From any call on: the file becomes the complete new one exactly when the rename is reached
      and takes effect, and nothing else changes that outlives the flush. */
  lemma {:induction false} FlushFromAtomic(i: nat, w: World, name: nat, jobs: Jobs)
    requires i <= |FLUSH| && Prepared(i, w, name, jobs)
    ensures var r := FlushFrom(i, w, name, jobs);
            && r.1.live == (if i < 7 && Lands(i, w.script) then Some(Encoded(jobs)) else w.live)
            && (r.0.Done? <==> GoodFor(w.script, |FLUSH| - i))
            && (r.0.Done? ==> (i < 7 ==> Lands(i, w.script)) && r.1.script == Drop(w.script, 7 - i))
            && (r.0.Refused? ==> i < 7 && !Lands(i, w.script))
            && (!r.0.Died? ==> name !in r.1.temps) && r.1.temps - {name} == w.temps - {name}
            && r.1.trace == w.trace && r.1.tree == w.tree
    decreases |FLUSH| - i
  {
    hide Call;
    if i < |FLUSH| {
      CallKeeps(i, w, name, jobs);
      if NextAnswer(w).Good? {
        FlushFromAtomic(i + 1, Call(w, FLUSH[i], name, jobs), name, jobs);
      }
    }
  }

  /** Wherever a flush stops, the job file is the complete encoding of the map after the Put if the
      rename landed, and what it was if not. It has landed if the flush returns, and has not if
      the flush fails; if the process dies, the script says. No temporary file is left but by a
      process that dies, and no other is touched. */
  lemma FlushAtomic(w: World, jobs: Jobs)
    ensures var (s, w') := Flush(w, jobs);
            && w'.live == (if Lands(0, w.script) then Some(Encoded(jobs)) else w.live)
            && (s.Done? <==> GoodFor(w.script, 7))
            && (s.Done? ==> Lands(0, w.script) && w'.script == Drop(w.script, 7))
            && (s.Refused? ==> !Lands(0, w.script))
            && (!s.Died? ==> w.nextTemp !in w'.temps) && w'.temps - {w.nextTemp} == w.temps - {w.nextTemp}
            && w'.trace == w.trace && w'.tree == w.tree
  {
    FlushFromAtomic(0, w, w.nextTemp, jobs);
  }

  // ---- Put and reload ----

  datatype Store = Store(jobs: Jobs, w: World)

  /** Replaces a job in memory and flushes; a flush that fails panics, which ends the process. */
  function Replaced(s: Store, job: Job): (bool, Store)
  {
    var jobs := s.jobs[job.id := job];
    var (status, w) := Flush(s.w, jobs);
    (status.Done?, Store(jobs, w))
  }

  /** What a fresh process reads: nothing, the jobs, or an error for a file cut short. */
  function Load(live: Option<Content>): Option<Jobs>
  {
    match live
    case None => Some(map[])
    case Some(Encoded(jobs)) => Some(jobs)
    case Some(Unsynced(jobs)) => Some(jobs)
    case Some(Torn) => None
  }

  /** A process starts from the job file. */
  function Boot(w: World): Store
  {
    Store(if Load(w.live).Some? then Load(w.live).value else map[], w)
  }

  predicate InStep(s: Store) { Load(s.w.live) == Some(s.jobs) }

  /** The store refines a map: a Put that returns has replaced one entry, in memory and for every
      later process; one that does not return has done so for a later process exactly if its
      rename landed. */
  lemma PutRefinesMap(s: Store, job: Job)
    requires InStep(s)
    ensures var (ok, s') := Replaced(s, job);
            && s'.jobs == s.jobs[job.id := job]
            && Load(s'.w.live) == Some(if Lands(0, s.w.script) then s'.jobs else s.jobs)
            && (ok <==> GoodFor(s.w.script, 7))
            && (ok ==> Lands(0, s.w.script) && InStep(s') && s'.w.script == Drop(s.w.script, 7))
            && s'.w.trace == s.w.trace && s'.w.tree == s.w.tree
  {
    FlushAtomic(s.w, s.jobs[job.id := job]);
  }

  /** A Put that nothing disturbs returns. */
  lemma ReplacedGood(s: Store, job: Job)
    requires AllGood(s.w)
    ensures Replaced(s, job).0 && AllGood(Replaced(s, job).1.w)
  {
    FlushAtomic(s.w, s.jobs[job.id := job]);
    GrantsGoodFor(s.w.script, 7);
  }

  // ---- Any history of processes ----

  /** A Put, the script that answers it, and whether the power failed before it, if the process
      before it died. */
  datatype Request = Request(job: Job, script: Script, blackout: bool)

  /** A power failure cuts short every file that is not synced. */
  function Cut(c: Content): Content { if c.Unsynced? then Torn else c }

  function PowerLost(w: World): World
  {
    w.(live := if w.live.Some? then Some(Cut(w.live.value)) else None,
       temps := map n | n in w.temps :: Cut(w.temps[n]))
  }

  /** A process that died is followed by one that reloads the file, perhaps after a power failure. */
  function Process(s: Store, alive: bool, blackout: bool): Store
  {
    var w := if blackout && !alive then PowerLost(s.w) else s.w;
    if alive || Load(w.live).None? then s.(w := w) else Store(Load(w.live).value, w)
  }

  /** The store after some Puts, and whether the last process is still alive. */
  function Serve(requests: seq<Request>, w: World): (bool, Store)
    decreases |requests|
  {
    if requests == [] then (false, Store(map[], w))
    else
      var r := requests[|requests| - 1];
      var (alive, before) := Serve(requests[..|requests| - 1], w);
      var s := Process(before, alive, r.blackout);
      Replaced(s.(w := s.w.(script := r.script)), r.job)
  }

  function OnDisk(requests: seq<Request>, w: World): Option<Jobs>
  {
    Load(Serve(requests, w).1.w.live)
  }

  predicate Landed(r: Request) { Lands(0, r.script) }

  /** The map that the Puts whose rename landed make, in order. */
  function Fold(requests: seq<Request>): Jobs
  {
    if requests == [] then map[]
    else
      var r, before := requests[|requests| - 1], Fold(requests[..|requests| - 1]);
      if Landed(r) then before[r.job.id := r.job] else before
  }

  predicate Durable(live: Option<Content>) { live.Some? ==> !live.value.Unsynced? }

  /** Through any Puts, crashes and power failures the file is exactly that map, whatever each Put
      found in memory, and a power failure now would not change it; a process still alive agrees
      with it, and its Put landed. */
  lemma {:induction false} ReloadIsFold(requests: seq<Request>, w: World)
    requires w.live.None?
    ensures OnDisk(requests, w) == Some(Fold(requests)) && Durable(Serve(requests, w).1.w.live)
    ensures Load(PowerLost(Serve(requests, w).1.w).live) == Some(Fold(requests))
    ensures Serve(requests, w).0 ==> InStep(Serve(requests, w).1) && Landed(requests[|requests| - 1])
    decreases |requests|
  {
    hide Replaced, Landed;
    if requests != [] {
      var r, earlier := requests[|requests| - 1], requests[..|requests| - 1];
      ReloadIsFold(earlier, w);
      var before := Serve(earlier, w);
      var s := Process(before.1, before.0, r.blackout);
      assert InStep(s) && s.jobs == Fold(earlier);
      PutLands(s.(w := s.w.(script := r.script)), r);
    }
  }

  lemma PutLands(s: Store, r: Request)
    requires InStep(s) && s.w.script == r.script && Durable(s.w.live)
    ensures var (ok, s') := Replaced(s, r.job);
            && Load(s'.w.live) == Some(if Landed(r) then s.jobs[r.job.id := r.job] else s.jobs)
            && (ok ==> Landed(r) && InStep(s')) && Durable(s'.w.live)
  {
    PutRefinesMap(s, r.job);
    FlushAtomic(s.w, s.jobs[r.job.id := r.job]);
  }

  /** The i-th Put is the last for its ID whose rename landed. */
  predicate LastLanded(requests: seq<Request>, i: nat)
  {
    && i < |requests| && Landed(requests[i])
    && forall j :: i < j < |requests| && requests[j].job.id == requests[i].job.id ==> !Landed(requests[j])
  }

  /** An ID is in the map exactly when a Put for it landed, with the job of the last such. */
  lemma {:induction false} FoldIsLastLanded(requests: seq<Request>, id: string) returns (i: nat)
    ensures id in Fold(requests) <==> exists j :: 0 <= j < |requests| && requests[j].job.id == id && Landed(requests[j])
    ensures id in Fold(requests) ==>
              LastLanded(requests, i) && requests[i].job.id == id && Fold(requests)[id] == requests[i].job
    decreases |requests|
  {
    hide Landed;
    i := 0;
    if requests != [] {
      var last, earlier := |requests| - 1, requests[..|requests| - 1];
      if requests[last].job.id == id && Landed(requests[last]) {
        i := last;
      } else {
        i := FoldIsLastLanded(earlier, id);
        assert forall j :: 0 <= j < last ==> earlier[j] == requests[j];
      }
    }
  }

  lemma LastLandedUnique(requests: seq<Request>, i: nat, j: nat)
    requires LastLanded(requests, i) && LastLanded(requests, j) && requests[i].job.id == requests[j].job.id
    ensures i == j
  {
  }

  /** What any later process finds for an ID is the last Put whose rename completed. */
  lemma ReloadFindsLast(requests: seq<Request>, w: World, i: nat)
    requires w.live.None? && LastLanded(requests, i)
    ensures OnDisk(requests, w).Some? && requests[i].job.id in OnDisk(requests, w).value
    ensures OnDisk(requests, w).value[requests[i].job.id] == requests[i].job
  {
    ReloadIsFold(requests, w);
    var j := FoldIsLastLanded(requests, requests[i].job.id);
    LastLandedUnique(requests, i, j);
  }

  /** In particular a Put that returned, until another Put for the same ID. */
  lemma PutIsDurable(requests: seq<Request>, w: World, i: nat)
    requires w.live.None? && i < |requests| && Serve(requests[..i + 1], w).0
    requires forall j :: i < j < |requests| ==> requests[j].job.id != requests[i].job.id
    ensures OnDisk(requests, w).Some? && requests[i].job.id in OnDisk(requests, w).value
    ensures OnDisk(requests, w).value[requests[i].job.id] == requests[i].job
  {
    ReloadIsFold(requests[..i + 1], w);
    ReloadFindsLast(requests, w, i);
  }

  /** And what a reload finds was put: no Put for that ID has landed since, so none has returned. */
  lemma NothingInvented(requests: seq<Request>, w: World, id: string) returns (i: nat)
    requires w.live.None? && OnDisk(requests, w).Some? && id in OnDisk(requests, w).value
    ensures LastLanded(requests, i) && requests[i].job.id == id && OnDisk(requests, w).value[id] == requests[i].job
    ensures forall k :: i + 1 < k <= |requests| && requests[k - 1].job.id == id ==> !Serve(requests[..k], w).0
  {
    hide Serve, Fold, Landed;
    ReloadIsFold(requests, w);
    i := FoldIsLastLanded(requests, id);
    forall k | i + 1 < k <= |requests| && requests[k - 1].job.id == id ensures !Serve(requests[..k], w).0 {
      ReloadIsFold(requests[..k], w);
    }
  }

  // ---- The store as an object ----

  class JobFile {
    const host: Host
    var jobs: Jobs

    ghost function State(): Store
      reads this, host
    {
      Store(jobs, host.world)
    }

    constructor (host: Host, jobs: Jobs)
      ensures this.host == host && this.jobs == jobs
    {
      this.host, this.jobs := host, jobs;
    }

    /** A new process: the jobs on file, none if there is no file, an error for a torn one. */
    static method Open(host: Host) returns (f: Option<JobFile>)
      ensures f.Some? <==> host.world.live != Some(Torn)
      ensures f.Some? && host.world.live.None? ==> f.value.jobs == map[]
      ensures f.Some? && host.world.live.Some? ==> f.value.jobs == host.world.live.value.jobs
      ensures f.Some? ==> fresh(f.value) && f.value.host == host && InStep(f.value.State())
    {
      match host.world.live
      case None => { var file := new JobFile(host, map[]); f := Some(file); }
      case Some(Encoded(jobs)) => { var file := new JobFile(host, jobs); f := Some(file); }
      case Some(Unsynced(jobs)) => { var file := new JobFile(host, jobs); f := Some(file); }
      case Some(Torn) => f := None;
    }

    method Get(id: string) returns (job: Option<Job>)
      ensures job == if id in jobs then Some(jobs[id]) else None
    {
      job := if id in jobs then Some(jobs[id]) else None;
    }

    /** False when the process is gone: killed, or panicked over a failed flush. */
    method Put(job: Job) returns (ok: bool)
      modifies this`jobs, host
      ensures (ok, State()) == Replaced(old(State()), job)
    {
      jobs := jobs[job.id := job];
      var status := FlushFile();
      ok := status.Done?;
    }

    /** One system call of a flush: the flush goes on, or it ends here. */
    method Syscall(i: nat, name: nat) returns (end: Option<Status>)
      requires i < |FLUSH|
      modifies host
      ensures end.None? ==> FlushFrom(i + 1, host.world, name, jobs) == FlushFrom(i, old(host.world), name, jobs)
      ensures end.Some? ==> (end.value, host.world) == FlushFrom(i, old(host.world), name, jobs)
    {
      var a := host.Ask();
      if TakesEffect(a) {
        host.world := Effected(host.world, FLUSH[i], name, jobs);
      } else {
        host.world := Botched(host.world, FLUSH[i], name);
      }
      if a.Dead? {
        return Some(Died);
      }
      if a.Bad? {
        host.world := Removed(host.world, name);
        return Some(Refused);
      }
      return None;
    }

    method FlushFile() returns (status: Status)
      modifies host
      ensures (status, host.world) == Flush(old(host.world), jobs)
    {
      hide FlushFrom;
      var name := host.world.nextTemp;
      var end := Syscall(0, name);
      if end.Some? { return end.value; }
      end := Syscall(1, name);
      if end.Some? { return end.value; }
      end := Syscall(2, name);
      if end.Some? { return end.value; }
      end := Syscall(3, name);
      if end.Some? { return end.value; }
      end := Syscall(4, name);
      if end.Some? { return end.value; }
      end := Syscall(5, name);
      if end.Some? { return end.value; }
      end := Syscall(6, name);
      if end.Some? { return end.value; }
      FlushEnd(host.world, name, jobs);
      host.world := Removed(host.world, name);
      return Done;
    }
  }

  lemma FlushEnd(w: World, name: nat, jobs: Jobs)
    ensures FlushFrom(7, w, name, jobs) == (Done, Removed(w, name))
  {
  }
}
