// The Pi as the lifecycle code meets it: every external call is answered by a script, which may
// refuse it or end the process there. The job file, its temporary files, the release tree and
// the trace of completed host operations survive the process.
module Machine {
  import opened Prelude

  datatype State = Queued | Running | Succeeded | Failed | NeedsInput

  /** The checkpoints of the provisioning workflow. */
  datatype Checkpoint = Backup | Packages | Configure | Services | Health

  /** What a job's phase field can say. */
  datatype Phase =
    | Unset | Preflight | ConfirmConfig | At(c: Checkpoint) | Complete
    | VerifyManifest | Download | VerifyDigest | Stage | Activate | Rollback | RolledBack

  /** Why the preflight turns a host down. */
  datatype Unfitness = Architecture(found: string) | NotBookworm | LowStorage | NoEthernet | NoRadio | NoGPS

  /** What a job's message field can say, and its words. */
  datatype Message =
    | Blank | Told(reason: string) | Unfit(why: Unfitness) | ConfirmFirst | Provisioned | Updated | Reverted

  function Words(m: Message): string
  {
    match m
    case Blank => ""
    case Told(reason) => reason
    case Unfit(why) => Complaint(why)
    case ConfirmFirst => "existing configuration will be backed up; explicit confirmation required"
    case Provisioned => "provisioning completed; mTLS, loopback Kismet, radios, GPS, and service health verified"
    case Updated => "update activated after signed-manifest, digest, and health checks"
    case Reverted => "UPDATE_ROLLED_BACK: staged release failed health checks; prior release restored"
  }

  function Complaint(u: Unfitness): string
  {
    match u
    case Architecture(found) => "unsupported architecture \"" + found + "\": Raspberry Pi arm64 required"
    case NotBookworm => "Raspberry Pi OS Bookworm is required"
    case LowStorage => "at least 2048 MB free storage is required"
    case NoEthernet => "required management interface eth0 is unavailable"
    case NoRadio => "no supported radio is visible"
    case NoGPS => "GPS is not visible"
  }

  /** A job record (bottle-agent/internal/lifecycle/lifecycle.go:31-40); its map of completed
      checkpoints only ever holds true, so it is a set. */
  datatype Job = Job(
    id: string, kind: string, state: State, phase: Phase, message: Message,
    changedPaths: seq<string>, completed: set<Checkpoint>)

  type Jobs = map<string, Job>

  /** A file as a reader finds it: the encoding of some jobs, on disk or not yet synced to it, or
      something cut short. */
  datatype Content = Encoded(jobs: Jobs) | Unsynced(jobs: Jobs) | Torn

  /** How a call ends: done, refused, or the process dies in it with or without the effect. */
  datatype Answer = Good | Bad(reason: string) | Dead(applied: bool)

  /** A host operation that took effect, with the job it was for. */
  datatype Effect = Effect(id: string, op: Checkpoint)

  type Path = seq<string>

  /** A release file: all of a payload, or what an interrupted write left. */
  datatype Blob = Whole(payload: string) | Partial

  /** The release tree: directories, files, and the current and temporary links. */
  datatype Tree = Tree(dirs: set<Path>, files: map<Path, Blob>, current: Option<Path>, tmp: Option<Path>)

  /** The answers to come; from the end on, every call is done. */
  datatype Script = Obliging | Then(answer: Answer, rest: Script)

  datatype World = World(
    script: Script, trace: seq<Effect>, live: Option<Content>, temps: map<nat, Content>, nextTemp: nat,
    tree: Tree)

  function Head(s: Script): Answer { if s.Then? then s.answer else Good }

  function Tail(s: Script): Script { if s.Then? then s.rest else Obliging }

  /** The script after n answers. */
  function Drop(s: Script, n: nat): Script { if n == 0 then s else Drop(Tail(s), n - 1) }

  /** n calls that are done, then the given answers. */
  function Goods(n: nat, rest: Script): Script { if n == 0 then rest else Then(Good, Goods(n - 1, rest)) }

  lemma {:induction false} GoodsAre(n: nat, rest: Script)
    ensures GoodFor(Goods(n, rest), n) && Drop(Goods(n, rest), n) == rest
  {
    if n > 0 {
      GoodsAre(n - 1, rest);
    }
  }

  /** The next n calls are done. */
  predicate GoodFor(s: Script, n: nat) { n == 0 || (Head(s).Good? && GoodFor(Tail(s), n - 1)) }

  lemma {:induction false} GoodForSplit(s: Script, m: nat, n: nat)
    ensures GoodFor(s, m + n) <==> GoodFor(s, m) && GoodFor(Drop(s, m), n)
    ensures Drop(Drop(s, m), n) == Drop(s, m + n)
    decreases m
  {
    if m > 0 {
      GoodForSplit(Tail(s), m - 1, n);
    }
  }

  lemma {:induction false} GrantsGoodFor(s: Script, n: nat)
    requires Grants(s)
    ensures GoodFor(s, n) && Grants(Drop(s, n))
    decreases n
  {
    if n > 0 {
      GrantsGoodFor(Tail(s), n - 1);
    }
  }

  function NextAnswer(w: World): Answer { Head(w.script) }

  function Asked(w: World): World { w.(script := Tail(w.script)) }

  /** Whether a call answered so has its effect. */
  predicate TakesEffect(a: Answer) { a.Good? || (a.Dead? && a.applied) }

  /** Nothing will be refused any more. */
  predicate AllGood(w: World) { Grants(w.script) }

  predicate Grants(s: Script) { s.Then? ==> s.answer.Good? && Grants(s.rest) }

  /** A host operation worth counting: it is recorded when it takes effect. */
  function Performed(w: World, id: string, op: Checkpoint): World
  {
    if TakesEffect(NextAnswer(w)) then Asked(w).(trace := w.trace + [Effect(id, op)]) else Asked(w)
  }

  class Host {
    var world: World

    constructor (world: World)
      ensures this.world == world
    {
      this.world := world;
    }

    method Ask() returns (a: Answer)
      modifies this
      ensures a == NextAnswer(old(world)) && world == Asked(old(world))
    {
      a := NextAnswer(world);
      world := Asked(world);
    }

    method Perform(id: string, op: Checkpoint) returns (a: Answer)
      modifies this
      ensures a == NextAnswer(old(world)) && world == Performed(old(world), id, op)
    {
      a := Ask();
      if TakesEffect(a) {
        world := world.(trace := world.trace + [Effect(id, op)]);
      }
    }
  }
}
