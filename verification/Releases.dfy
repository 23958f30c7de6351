// Release directories and the current link (bottle-agent/internal/host/host.go:242-288).
module Releases {
  import opened Prelude
  import opened Machine

  // ---- Paths ----

  /** The parts of a name between its slashes. */
  function Parts(name: string): (r: seq<string>)
    ensures r != []
  {
    if name == "" then [""]
    else
      var r, c := Parts(name[..|name| - 1]), name[|name| - 1];
      if c == '/' then r + [""] else r[..|r| - 1] + [r[|r| - 1] + [c]]
  }

  function Enter(dir: Path, part: string): Path
  {
    if part == "" || part == "." then dir
    else if part == ".." then (if dir == [] then [] else dir[..|dir| - 1])
    else dir + [part]
  }

  function Walk(dir: Path, parts: seq<string>): Path
    decreases |parts|
  {
    if parts == [] then dir else Walk(Enter(dir, parts[0]), parts[1..])
  }

  /** filepath.Join of a clean absolute directory and a name. */
  function Join(dir: Path, name: string): Path { Walk(dir, Parts(name)) }

  /** filepath.Base. */
  function Base(p: Path): string { if p == [] then "/" else p[|p| - 1] }

  /** One ordinary path element. */
  predicate Simple(name: string)
  {
    name != "" && name != "." && name != ".." && '/' !in name
  }

  lemma {:induction false} PartsOfOne(name: string)
    requires '/' !in name
    ensures Parts(name) == [name]
    decreases |name|
  {
    if name != "" {
      PartsOfOne(name[..|name| - 1]);
      assert name == name[..|name| - 1] + [name[|name| - 1]];
    }
  }

  lemma JoinSimple(dir: Path, name: string)
    requires Simple(name)
    ensures Join(dir, name) == dir + [name] && Base(Join(dir, name)) == name
  {
    PartsOfOne(name);
    assert Walk(dir, [name]) == Walk(dir + [name], [name][1..]);
  }

  // ---- Operations ----

  /** How an operation ends: done, with an error, or with the process. */
  datatype Result = Ok | Err(reason: string) | Gone

  function Ancestors(p: Path): set<Path> { set i | 0 <= i <= |p| :: p[..i] }

  function ReleaseFile(target: Path): Path { target + ["release.bin"] }

  function MakeDir(t: Tree, dir: Path): Tree { t.(dirs := t.dirs + Ancestors(dir)) }

  function WriteFile(t: Tree, p: Path, b: Blob): Tree { t.(files := t.files[p := b]) }

  /** Makes the directory, then opens the file, which empties it, then writes. */
  function Staged(w: World, releases: Path, version: string, payload: string): (Result, World)
  {
    var dir := Join(releases, version);
    var w1 := Asked(w);
    match NextAnswer(w)
    case Bad(reason) => (Err(reason), w1)
    case Dead(applied) => (Gone, if applied then w1.(tree := MakeDir(w1.tree, dir)) else w1)
    case Good => Opened(w1.(tree := MakeDir(w1.tree, dir)), ReleaseFile(dir), payload)
  }

  function Opened(w: World, file: Path, payload: string): (Result, World)
  {
    var w1 := Asked(w);
    match NextAnswer(w)
    case Bad(reason) => (Err(reason), w1)
    case Dead(applied) => (Gone, if applied then w1.(tree := WriteFile(w1.tree, file, Partial)) else w1)
    case Good => Written(w1.(tree := WriteFile(w1.tree, file, Partial)), file, payload)
  }

  function Written(w: World, file: Path, payload: string): (Result, World)
  {
    var w1 := Asked(w);
    var done := w1.(tree := WriteFile(w1.tree, file, Whole(payload)));
    match NextAnswer(w)
    case Good => (Ok, done)
    case Bad(reason) => (Err(reason), w1)
    case Dead(applied) => (Gone, if applied then done else w1)
  }

  function Active(t: Tree): string
  {
    if t.current.None? then "" else Base(t.current.value)
  }

  /** The calls of switchTo after the check that the release exists. */
  datatype Stage = RemoveTmp | Symlink | Rename | Restart

  const SWITCH: seq<Stage> := [RemoveTmp, Symlink, Rename, Restart]

  predicate Exists(t: Tree, p: Path) { p in t.dirs || p in t.files }

  function Effected(t: Tree, stage: Stage, target: Path): Tree
  {
    match stage
    case RemoveTmp => t.(tmp := None)
    case Symlink => t.(tmp := Some(target))
    case Rename => t.(current := t.tmp, tmp := None)
    case Restart => t
  }

  /** A symlink call fails on its own when the name is taken; a failed removal is ignored. */
  function SwitchFrom(i: nat, w: World, target: Path): (Result, World)
    requires i <= |SWITCH|
    decreases |SWITCH| - i, w.nextTemp  // the world in it keeps Dafny from unrolling a switch whole
  {
    if i == |SWITCH| then (Ok, w)
    else
      var w1 := Asked(w);
      if NextAnswer(w).Dead? then
        (Gone, if TakesEffect(NextAnswer(w)) && !Taken(w, i) then w1.(tree := Effected(w1.tree, SWITCH[i], target))
               else w1)
      else if Taken(w, i) then (Err("stage current symlink: file exists"), w1)
      else if NextAnswer(w).Good? then SwitchFrom(i + 1, w1.(tree := Effected(w1.tree, SWITCH[i], target)), target)
      else if SWITCH[i].RemoveTmp? then SwitchFrom(i + 1, w1, target)
      else (Err(NextAnswer(w).reason), w1)
  }

  /** The temporary link's name is in use when it is to be made. */
  predicate Taken(w: World, i: nat)
    requires i < |SWITCH|
  {
    SWITCH[i].Symlink? && w.tree.tmp.Some?
  }

  function Switched(w: World, releases: Path, version: string): (Result, World)
  {
    var target := Join(releases, version);
    if !Exists(w.tree, target) then (Err("release " + version + " is not staged"), w)
    else SwitchFrom(0, w, target)
  }

  // ---- Atomicity ----

  /** What a switch may have done by the time it returns, fails or dies. */
  predicate SwitchedFrom(t: Tree, t': Tree, target: Path)
  {
    t'.dirs == t.dirs && t'.files == t.files && (t'.current == t.current || t'.current == Some(target))
  }

  lemma {:induction false} SwitchFromAtomic(i: nat, w: World, target: Path)
    requires i <= |SWITCH| && (i == 2 ==> w.tree.tmp == Some(target))
    requires i <= 2 || w.tree.current == Some(target)
    ensures var r := SwitchFrom(i, w, target);
            && SwitchedFrom(w.tree, r.1.tree, target) && r.1.live == w.live && r.1.trace == w.trace
            && (r.0.Ok? ==> r.1.tree.current == Some(target) && r.1.script == Drop(w.script, |SWITCH| - i))
            && (r.0.Ok? && i <= 2 ==> r.1.tree.tmp.None?)
    decreases |SWITCH| - i
  {
    if i < |SWITCH| && !Taken(w, i) {
      var w1 := Asked(w);
      if NextAnswer(w).Good? {
        SwitchFromAtomic(i + 1, w1.(tree := Effected(w1.tree, SWITCH[i], target)), target);
      } else if NextAnswer(w).Bad? && SWITCH[i].RemoveTmp? {
        SwitchFromAtomic(i + 1, w1, target);
      }
    }
  }

  /** At every point of a switch the current link reads as the old target or the new one, and a
      switch that returns has made it the new one. */
  lemma SwitchAtomic(w: World, releases: Path, version: string)
    ensures var (r, w') := Switched(w, releases, version);
            && SwitchedFrom(w.tree, w'.tree, Join(releases, version)) && w'.live == w.live && w'.trace == w.trace
            && (r.Ok? ==> w'.tree.current == Some(Join(releases, version)) && w'.tree.tmp.None?
                          && w'.script == Drop(w.script, 4))
            && (w'.tree.current != w.tree.current ==> Exists(w.tree, Join(releases, version)))
  {
    if Exists(w.tree, Join(releases, version)) {
      SwitchFromAtomic(0, w, Join(releases, version));
    }
  }

  /** A switch that fails may have switched all the same: exactly when what failed was the restart. */
  lemma FailedSwitch(w: World, releases: Path, version: string)
    requires Switched(w, releases, version).0.Err?
    ensures var w', target := Switched(w, releases, version).1, Join(releases, version);
            && w'.tree.current == (if Exists(w.tree, target) && RestartFails(w.script, w.tree.tmp.None?)
                                   then Some(target) else w.tree.current)
            && (w'.tree.current != w.tree.current
                <==> Exists(w.tree, target) && w.tree.current != Some(target)
                     && RestartFails(w.script, w.tree.tmp.None?))
  {
    var target := Join(releases, version);
    if Exists(w.tree, target) {
      SwitchStages(w, target);
    }
  }

  /** The script answers the calls before the restart, over a leftover temporary link only if its
      removal is done, and refuses the restart. */
  predicate RestartFails(s: Script, free: bool)
  {
    match s
    case Then(remove, Then(link, Then(rename, Then(restart, _)))) =>
      (remove.Good? || (remove.Bad? && free)) && link.Good? && rename.Good? && restart.Bad?
    case _ => false
  }

  /** A restart that fails: the switch ends with an error and the link is on the new release. */
  lemma RestartFailureMoves(w: World, releases: Path, version: string, reason: string)
    requires Exists(w.tree, Join(releases, version))
    requires w.script == Then(Good, Then(Good, Then(Good, Then(Bad(reason), Obliging))))
    ensures var (r, w') := Switched(w, releases, version);
            r == Err(reason) && w'.tree.current == Some(Join(releases, version))
  {
    var target := Join(releases, version);
    var w1 := Asked(w).(tree := Effected(w.tree, RemoveTmp, target));
    var w2 := Asked(w1).(tree := Effected(w1.tree, Symlink, target));
    var w3 := Asked(w2).(tree := Effected(w2.tree, Rename, target));
    assert SwitchFrom(0, w, target) == SwitchFrom(1, w1, target);
    assert SwitchFrom(1, w1, target) == SwitchFrom(2, w2, target);
    assert SwitchFrom(2, w2, target) == SwitchFrom(3, w3, target);
  }

  lemma SwitchStages(w: World, target: Path)
    requires SwitchFrom(0, w, target).0.Err?
    ensures SwitchFrom(0, w, target).1.tree.current ==
            (if RestartFails(w.script, w.tree.tmp.None?) then Some(target) else w.tree.current)
  {
    var w1 := Asked(w).(tree := if NextAnswer(w).Good? then Effected(w.tree, RemoveTmp, target) else w.tree);
    assert SwitchFrom(0, w, target) == SwitchFrom(1, w1, target);
    if w1.tree.tmp.None? && NextAnswer(w1).Good? {
      var w2 := Asked(w1).(tree := Effected(w1.tree, Symlink, target));
      assert SwitchFrom(1, w1, target) == SwitchFrom(2, w2, target);
      if NextAnswer(w2).Good? {
        var w3 := Asked(w2).(tree := Effected(w2.tree, Rename, target));
        assert SwitchFrom(2, w2, target) == SwitchFrom(3, w3, target);
        SwitchOver(Asked(w3), target);
      }
    }
  }

  // ---- How a switch ends, told from its calls ----

  datatype SwitchEnd = Passes | Fails(used: nat, reason: string) | Dies

  function Stop(a: Answer, used: nat): SwitchEnd { if a.Bad? then Fails(used, a.reason) else Dies }

  /** Of the four calls the removal may be refused when there is nothing to remove; with a leftover
      that is not removed the link cannot be made. `free` says that there is no leftover. */
  function SwitchEnding(s: Script, free: bool): SwitchEnd
  {
    if Head(s).Dead? then Dies
    else if Head(s).Bad? && !free then
      if Head(Drop(s, 1)).Dead? then Dies else Fails(2, "stage current symlink: file exists")
    else if !Head(Drop(s, 1)).Good? then Stop(Head(Drop(s, 1)), 2)
    else if !Head(Drop(s, 2)).Good? then Stop(Head(Drop(s, 2)), 3)
    else if !Head(Drop(s, 3)).Good? then Stop(Head(Drop(s, 3)), 4)
    else Passes
  }

  predicate SwitchTells(e: SwitchEnd, s: Script, r: (Result, World))
  {
    match e
    case Passes => r.0.Ok? && r.1.script == Drop(s, 4)
    case Fails(used, reason) => r.0 == Err(reason) && r.1.script == Drop(s, used)
    case Dies => r.0.Gone?
  }

  /** Exactly how a switch to an existing release ends. */
  lemma SwitchEnds(w: World, releases: Path, version: string)
    requires Exists(w.tree, Join(releases, version))
    ensures SwitchTells(SwitchEnding(w.script, w.tree.tmp.None?), w.script, Switched(w, releases, version))
  {
    hide Join;
    var target := Join(releases, version);
    DropTwo(w.script);
    assert Drop(w.script, 4) == Drop(Tail(w.script), 3);
    DropTwo(Tail(w.script));
    var w1 := Asked(w).(tree := if NextAnswer(w).Good? then Effected(w.tree, RemoveTmp, target) else w.tree);
    assert !Head(w.script).Dead? ==> SwitchFrom(0, w, target) == SwitchFrom(1, w1, target);
    if !Head(w.script).Dead? && w1.tree.tmp.None? && NextAnswer(w1).Good? {
      var w2 := Asked(w1).(tree := Effected(w1.tree, Symlink, target));
      assert SwitchFrom(1, w1, target) == SwitchFrom(2, w2, target);
      if NextAnswer(w2).Good? {
        var w3 := Asked(w2).(tree := Effected(w2.tree, Rename, target));
        assert SwitchFrom(2, w2, target) == SwitchFrom(3, w3, target);
        SwitchOver(Asked(w3), target);
      }
    }
  }

  // ---- Operations that are not refused ----

  lemma {:induction false} SwitchFromGood(i: nat, w: World, target: Path)
    requires i <= |SWITCH| && GoodFor(w.script, |SWITCH| - i) && (i == 1 ==> w.tree.tmp.None?)
    ensures SwitchFrom(i, w, target).0.Ok?
    decreases |SWITCH| - i
  {
    if i < |SWITCH| {
      SwitchFromGood(i + 1, Asked(w).(tree := Effected(w.tree, SWITCH[i], target)), target);
    }
  }

  /** A switch to an existing release then goes through, over any leftover temporary link. */
  lemma SwitchedGood(w: World, releases: Path, version: string)
    requires GoodFor(w.script, 4) && Exists(w.tree, Join(releases, version))
    ensures Switched(w, releases, version).0.Ok?
  {
    SwitchFromGood(0, w, Join(releases, version));
  }

  /** And a release staged under an ordinary name and switched to is the active one. */
  lemma ActivatedIsActive(w: World, releases: Path, version: string)
    requires Simple(version) && Switched(w, releases, version).0.Ok?
    ensures Active(Switched(w, releases, version).1.tree) == version
  {
    hide Switched;
    SwitchAtomic(w, releases, version);
    JoinSimple(releases, version);
  }

  lemma StagedGood(w: World, releases: Path, version: string, payload: string)
    requires GoodFor(w.script, 3)
    ensures Staged(w, releases, version, payload).0.Ok?
  {
    assert GoodFor(Tail(w.script), 2) && GoodFor(Tail(Tail(w.script)), 1);
  }

  /** How a staging ends, told from its three calls. */
  lemma StagedEnds(w: World, releases: Path, version: string, payload: string)
    ensures var r, x := Staged(w, releases, version, payload).0, w.script;
            && (r.Ok? <==> GoodFor(x, 3))
            && (r.Err? <==> FirstRefused(x, 0) || FirstRefused(x, 1) || FirstRefused(x, 2))
            && (forall n :: 0 <= n < 3 && FirstRefused(x, n) ==>
                  r == Err(Head(Drop(x, n)).reason)
                  && Staged(w, releases, version, payload).1.script == Drop(x, n + 1))
  {
    DropTwo(w.script);
    GoodForSplit(w.script, 1, 1);
    GoodForSplit(w.script, 2, 1);
    hide Join;
  }

  /** The n-th call is the first that is not done, and it is refused. */
  predicate FirstRefused(s: Script, n: nat) { GoodFor(s, n) && Head(Drop(s, n)).Bad? }

  /** The files after a staging, told from its script: untouched unless the directory is made and
      the opening of the file takes effect; then whole if the file is opened and the write takes
      effect, and cut short if not. */
  function Stored(files: map<Path, Blob>, file: Path, payload: string, s: Script): map<Path, Blob>
  {
    if !Head(s).Good? || !TakesEffect(Head(Drop(s, 1))) then files
    else files[file := if Head(Drop(s, 1)).Good? && TakesEffect(Head(Drop(s, 2))) then Whole(payload) else Partial]
  }

  lemma DropTwo(s: Script)
    ensures Drop(s, 1) == Tail(s) && Drop(s, 2) == Tail(Tail(s)) && Drop(s, 3) == Tail(Tail(Tail(s)))
  {
    assert Drop(s, 2) == Drop(Tail(s), 1) && Drop(s, 3) == Drop(Tail(s), 2) == Drop(Tail(Tail(s)), 1);
  }

  lemma OpenedTree(w: World, file: Path, payload: string)
    ensures var (r, w') := Opened(w, file, payload);
            && w'.tree == w.tree.(files := w'.tree.files) && w'.trace == w.trace && w'.live == w.live
            && w'.tree.files ==
               (if !TakesEffect(Head(w.script)) then w.tree.files
                else w.tree.files[file := if Head(w.script).Good? && TakesEffect(Head(Tail(w.script)))
                                          then Whole(payload) else Partial])
            && (r.Ok? ==>
                  && w'.script == Tail(Tail(w.script))
                  && file in w'.tree.files && w'.tree.files[file] == Whole(payload))
  {
    var w1 := Asked(w).(tree := WriteFile(w.tree, file, Partial));
    assert WriteFile(w1.tree, file, Whole(payload)) == WriteFile(w.tree, file, Whole(payload));
  }

  /** What staging makes, however it ends: exactly those files, and neither link changes; a
      staging that returns has made every directory down to the release's, and stored the whole
      payload. */
  lemma StagedTree(w: World, releases: Path, version: string, payload: string)
    ensures var (r, w') := Staged(w, releases, version, payload);
            var dir := Join(releases, version);
            && w'.tree.files == Stored(w.tree.files, ReleaseFile(dir), payload, w.script)
            && w.tree.dirs <= w'.tree.dirs && w'.tree.current == w.tree.current && w'.tree.tmp == w.tree.tmp
            && w'.trace == w.trace && w'.live == w.live
            && (r.Ok? ==>
                  && w'.script == Drop(w.script, 3) && w'.tree.dirs == w.tree.dirs + Ancestors(dir)
                  && Ancestors(dir) <= w'.tree.dirs && Exists(w'.tree, dir)
                  && ReleaseFile(dir) in w'.tree.files && w'.tree.files[ReleaseFile(dir)] == Whole(payload))
  {
    var dir := Join(releases, version);
    assert dir[..|dir|] == dir;
    DropTwo(w.script);
    OpenedTree(Asked(w).(tree := MakeDir(w.tree, dir)), ReleaseFile(dir), payload);
    hide Join, ReleaseFile, Opened, Drop;
  }

  // ---- Any history of the tree ----

  datatype TreeOp = Staging(version: string, payload: string, script: Script)
                  | Switching(version: string, script: Script)

  function Operate(w: World, releases: Path, op: TreeOp): World
  {
    match op
    case Staging(version, payload, script) => Staged(w.(script := script), releases, version, payload).1
    case Switching(version, script) => Switched(w.(script := script), releases, version).1
  }

  function OperateAll(w: World, releases: Path, ops: seq<TreeOp>): World
  {
    if ops == [] then w else Operate(OperateAll(w, releases, ops[..|ops| - 1]), releases, ops[|ops| - 1])
  }

  /** The link is unset or leads to something that exists. */
  predicate LinkValid(t: Tree) { t.current.Some? ==> Exists(t, t.current.value) }

  /** No file stands where a release directory would. */
  predicate Tidy(t: Tree, releases: Path) { forall p :: p in t.files ==> |p| != |releases| + 1 }

  predicate Named(t: Tree, releases: Path)
  {
    t.current.Some? ==>
      var p := t.current.value;
      p in t.dirs && |p| == |releases| + 1 && p[..|releases|] == releases && Simple(p[|releases|])
  }

  lemma OperateKeeps(w: World, releases: Path, op: TreeOp)
    ensures LinkValid(w.tree) ==> LinkValid(Operate(w, releases, op).tree)
    ensures Simple(op.version) && Tidy(w.tree, releases) && Named(w.tree, releases) ==>
              Tidy(Operate(w, releases, op).tree, releases) && Named(Operate(w, releases, op).tree, releases)
  {
    if Simple(op.version) { JoinSimple(releases, op.version); }
    if op.Switching? {
      SwitchAtomic(w.(script := op.script), releases, op.version);
    }
  }

  /** After any staging, activating and rolling back, interrupted anywhere: a link that started
      unset or valid is unset or valid, and with ordinary version names it is unset or names an
      existing release directory. */
  lemma {:induction false} LinkStaysValid(w: World, releases: Path, ops: seq<TreeOp>)
    ensures LinkValid(w.tree) ==> LinkValid(OperateAll(w, releases, ops).tree)
    ensures (forall i :: 0 <= i < |ops| ==> Simple(ops[i].version))
            && Tidy(w.tree, releases) && Named(w.tree, releases) ==>
              Tidy(OperateAll(w, releases, ops).tree, releases) && Named(OperateAll(w, releases, ops).tree, releases)
    decreases |ops|
  {
    if ops != [] {
      LinkStaysValid(w, releases, ops[..|ops| - 1]);
      OperateKeeps(OperateAll(w, releases, ops[..|ops| - 1]), releases, ops[|ops| - 1]);
    }
  }

  // ---- The operations as the source runs them ----

  class ReleaseHost {
    const host: Host
    const releases: Path

    constructor (host: Host, releases: Path)
      ensures this.host == host && this.releases == releases
    {
      this.host, this.releases := host, releases;
    }

    method Stage(version: string, payload: string) returns (r: Result)
      modifies host
      ensures (r, host.world) == Staged(old(host.world), releases, version, payload)
    {
      var dir := Join(releases, version);
      var a := host.Ask();
      if a.Bad? {
        return Err(a.reason);
      }
      if TakesEffect(a) {
        host.world := host.world.(tree := MakeDir(host.world.tree, dir));
      }
      if a.Dead? {
        return Gone;
      }
      a := host.Ask();
      if TakesEffect(a) {
        host.world := host.world.(tree := WriteFile(host.world.tree, ReleaseFile(dir), Partial));
      }
      if !a.Good? {
        return if a.Bad? then Err(a.reason) else Gone;
      }
      a := host.Ask();
      if TakesEffect(a) {
        host.world := host.world.(tree := WriteFile(host.world.tree, ReleaseFile(dir), Whole(payload)));
      }
      match a
      case Good => r := Ok;
      case Bad(reason) => r := Err(reason);
      case Dead(_) => r := Gone;
    }

    method ActiveRelease() returns (name: string)
      ensures name == Active(host.world.tree)
    {
      match host.world.tree.current
      case None => name := "";
      case Some(target) => name := Base(target);
    }

    /** One call of a switch: the switch goes on, or it ends here. */
    method Call(i: nat, target: Path) returns (end: Option<Result>)
      requires i < |SWITCH|
      modifies host
      ensures end.None? ==> SwitchFrom(i + 1, host.world, target) == SwitchFrom(i, old(host.world), target)
      ensures end.Some? ==> (end.value, host.world) == SwitchFrom(i, old(host.world), target)
    {
      var taken := SWITCH[i].Symlink? && host.world.tree.tmp.Some?;
      var a := host.Ask();
      if !taken && TakesEffect(a) {
        host.world := host.world.(tree := Effected(host.world.tree, SWITCH[i], target));
      }
      if a.Dead? {
        return Some(Gone);
      }
      if taken {
        return Some(Err("stage current symlink: file exists"));
      }
      if a.Bad? && !SWITCH[i].RemoveTmp? {
        return Some(Err(a.reason));
      }
      return None;
    }

    method SwitchTo(version: string) returns (r: Result)
      modifies host
      ensures (r, host.world) == Switched(old(host.world), releases, version)
    {
      hide SwitchFrom;
      var target := Join(releases, version);
      if !Exists(host.world.tree, target) {
        return Err("release " + version + " is not staged");
      }
      var end := Call(0, target);
      if end.Some? { return end.value; }
      end := Call(1, target);
      if end.Some? { return end.value; }
      end := Call(2, target);
      if end.Some? { return end.value; }
      end := Call(3, target);
      if end.Some? { return end.value; }
      SwitchOver(host.world, target);
      return Ok;
    }
  }

  lemma SwitchOver(w: World, target: Path)
    ensures SwitchFrom(4, w, target) == (Ok, w)
  {
  }
}
