/**
 * Ownership of a run directory: processes acquire, clean and close guards on one run path, with every system
 * call a step of its own. Directories and files are numbered in order of birth; the inode numbers that SameFile
 * compares are reused as soon as nothing names or pins their object.
 */
module RunIdentity {

  datatype Option<T> = None | Some(value: T)

  type Proc = nat
  type Name = string

  /** A directory: inode number, entries (names to files), and the guard holding its lock. */
  datatype Dir = Dir(ino: nat, entries: map<Name, nat>, lock: Option<nat>)

  /** A file: inode number, the directory it was created in, and the process holding its record lock. */
  datatype File = File(ino: nat, home: nat, lock: Option<Proc>)

  /** Where an acquisition and the guard it becomes stand; each phase names the last step done. */
  datatype Phase =
    | New | Made | Seen
    | Admitted | Opened | Locked | Checked | PidOpened | PidLocked
    | Idle | Sweeping | Confirmed | Bare

  datatype Actor = Actor(proc: Proc, name: Name, phase: Phase, seen: nat, dir: nat, file: nat)

  /** The owners table is per process: its mutex (busy) is held from admission to the end of an acquisition. */
  datatype World = World(
    path: Option<nat>, dirs: seq<Dir>, files: seq<File>, actors: map<nat, Actor>,
    owners: map<Proc, nat>, busy: map<Proc, nat>)

  predicate Acquiring(p: Phase) {
    p.Admitted? || p.Opened? || p.Locked? || p.Checked? || p.PidOpened? || p.PidLocked?
  }

  predicate Guarding(p: Phase) { p.Idle? || p.Sweeping? || p.Confirmed? || p.Bare? }

  predicate HasDir(p: Phase) { p.Opened? || Holds(p) }

  predicate Holds(p: Phase) { p.Locked? || p.Checked? || HasFile(p) }

  predicate HasFile(p: Phase) { p.PidOpened? || p.PidLocked? || Guarding(p) }

  /** Phases that act on the run path by name. */
  predicate ActsByPath(p: Phase) {
    p.Checked? || p.PidOpened? || p.PidLocked? || p.Sweeping? || p.Confirmed? || p.Bare?
  }

  // ----- Steps -----

  datatype Event =
    | Begins(a: nat, proc: Proc, name: Name)
    | Mkdir(a: nat, ino: nat)
    | Lstat(a: nat)
    | Admit(a: nat)
    | OpenDir(a: nat)
    | Flock(a: nat)
    | CheckDir(a: nat)
    | OpenPid(a: nat, ino: nat)
    | LockPid(a: nat)
    | CheckPid(a: nat)
    | BeginSweep(a: nat)
    | Sweep(a: nat, entry: Name)
    | Recheck(a: nat)
    | Unlink(a: nat)
    | Rmdir(a: nat)
    | GiveUp(a: nat)
    | Close(a: nat)
    | Crash(proc: Proc)
    | OthersCreate(entry: Name, ino: nat)

  predicate At(w: World, a: nat, p: Phase) { a in w.actors && w.actors[a].phase == p }

  ghost predicate LiveDir(w: World, d: nat) {
    d < |w.dirs| && (w.path == Some(d) || exists a :: a in w.actors && PinsDir(w.actors[a], d))
  }

  predicate PinsDir(x: Actor, d: nat) { HasDir(x.phase) && x.dir == d }

  ghost predicate LiveFile(w: World, f: nat) {
    f < |w.files| && (Linked(w, f) || exists a :: a in w.actors && PinsFile(w.actors[a], f))
  }

  predicate PinsFile(x: Actor, f: nat) { HasFile(x.phase) && x.file == f }

  ghost predicate Linked(w: World, f: nat) {
    w.path.Some? && w.path.value < |w.dirs| && f in w.dirs[w.path.value].entries.Values
  }

  ghost predicate FreeDirIno(w: World, ino: nat) { forall d: nat :: LiveDir(w, d) ==> w.dirs[d].ino != ino }

  ghost predicate FreeFileIno(w: World, ino: nat) { forall f: nat :: LiveFile(w, f) ==> w.files[f].ino != ino }

  predicate PathOk(w: World) { w.path.Some? ==> w.path.value < |w.dirs| }

  /** The entry name of the directory the path names, if any. */
  function Entry(w: World, name: Name): Option<nat>
    requires PathOk(w)
  {
    if w.path.Some? && name in w.dirs[w.path.value].entries then Some(w.dirs[w.path.value].entries[name]) else None
  }

  /** SameFile between what the path's entry denotes and the file the actor has open. */
  predicate SamePid(w: World, x: Actor)
    requires PathOk(w)
  {
    var e := Entry(w, x.name);
    e.Some? && e.value < |w.files| && x.file < |w.files| && w.files[e.value].ino == w.files[x.file].ino
  }

  ghost predicate Enabled(w: World, e: Event) {
    && PathOk(w)
    && match e
       case Begins(a, _, _) => a !in w.actors
       case Mkdir(a, ino) => At(w, a, New) && FreeDirIno(w, ino)
       case Lstat(a) => At(w, a, Made)
       case Admit(a) => At(w, a, Seen) && w.actors[a].proc !in w.busy
       case OpenDir(a) => At(w, a, Admitted)
       case Flock(a) => At(w, a, Opened) && w.actors[a].dir < |w.dirs|
       case CheckDir(a) => At(w, a, Locked) && w.actors[a].dir < |w.dirs|
       case OpenPid(a, ino) => At(w, a, Checked) && FreeFileIno(w, ino)
       case LockPid(a) => At(w, a, PidOpened) && w.actors[a].file < |w.files|
       case CheckPid(a) => At(w, a, PidLocked)
       case BeginSweep(a) => At(w, a, Idle) && w.actors[a].proc !in w.busy
       case Sweep(a, entry) => At(w, a, Sweeping) && entry != w.actors[a].name
       case Recheck(a) => At(w, a, Sweeping)
       case Unlink(a) => At(w, a, Confirmed)
       case Rmdir(a) => At(w, a, Bare)
       case GiveUp(a) => a in w.actors && !w.actors[a].phase.Idle?
       case Close(a) => At(w, a, Idle) && w.actors[a].proc !in w.busy
       case Crash(_) => true
       case OthersCreate(entry, ino) => w.path.Some? && Entry(w, entry).None? && FreeFileIno(w, ino)
  }

  function Put(w: World, a: nat, x: Actor): World { w.(actors := w.actors[a := x]) }

  /** The actor moves to phase p. */
  function Goes(w: World, a: nat, p: Phase): World
    requires a in w.actors
  {
    Put(w, a, w.actors[a].(phase := p))
  }

  function Without(m: map<Proc, nat>, p: Proc, a: nat): map<Proc, nat> {
    if p in m && m[p] == a then m - {p} else m
  }

  /** Closing the directory descriptor drops the directory lock with it. */
  function Unlocked(ds: seq<Dir>, a: nat): seq<Dir> {
    seq(|ds|, i requires 0 <= i < |ds| => if ds[i].lock == Some(a) then ds[i].(lock := None) else ds[i])
  }

  /** Closing any descriptor of a file drops the process's record lock on it. */
  function Closed(fs: seq<File>, f: nat, p: Proc): seq<File> {
    if f < |fs| && fs[f].lock == Some(p) then fs[f := fs[f].(lock := None)] else fs
  }

  /** The actor closes what it has open and is gone. */
  function Leaves(w: World, a: nat): World
    requires a in w.actors
  {
    var x := w.actors[a];
    w.(actors := w.actors - {a}, dirs := Unlocked(w.dirs, a),
       files := if HasFile(x.phase) then Closed(w.files, x.file, x.proc) else w.files,
       owners := Without(w.owners, x.proc, a), busy := Without(w.busy, x.proc, a))
  }

  function WithEntries(w: World, entries: map<Name, nat>): World
    requires w.path.Some? && PathOk(w)
  {
    w.(dirs := w.dirs[w.path.value := w.dirs[w.path.value].(entries := entries)])
  }

  /** Removing a name through the run path. */
  function Removed(w: World, entry: Name): World
    requires PathOk(w)
  {
    if w.path.None? then w else WithEntries(w, w.dirs[w.path.value].entries - {entry})
  }

  /** Creating a name through the run path. */
  function Created(w: World, entry: Name, ino: nat): World
    requires w.path.Some? && PathOk(w)
  {
    var v := WithEntries(w, w.dirs[w.path.value].entries[entry := |w.files|]);
    v.(files := w.files + [File(ino, w.path.value, None)])
  }

  function MadeDir(w: World, a: nat, ino: nat): World
    requires a in w.actors
  {
    var v := Goes(w, a, Made);
    if w.path.Some? then v else v.(path := Some(|w.dirs|), dirs := w.dirs + [Dir(ino, map[], None)])
  }

  function OpenedDir(w: World, a: nat): World
    requires a in w.actors
  {
    if w.path.None? then Leaves(w, a) else Put(w, a, w.actors[a].(phase := Opened, dir := w.path.value))
  }

  function Flocked(w: World, a: nat): World
    requires a in w.actors && w.actors[a].dir < |w.dirs|
  {
    var d := w.actors[a].dir;
    if w.dirs[d].lock.Some? then Leaves(w, a) else Goes(w, a, Locked).(dirs := w.dirs[d := w.dirs[d].(lock := Some(a))])
  }

  /** The path must still name the directory seen first and opened since, by inode number. */
  function CheckedDir(w: World, a: nat): World
    requires a in w.actors && w.actors[a].dir < |w.dirs| && PathOk(w)
  {
    var ino := w.dirs[w.actors[a].dir].ino;
    if ino == w.actors[a].seen && w.path.Some? && w.dirs[w.path.value].ino == ino then Goes(w, a, Checked) else Leaves(w, a)
  }

  function OpenedPid(w: World, a: nat, ino: nat): World
    requires a in w.actors && PathOk(w)
  {
    var x := w.actors[a];
    var e := Entry(w, x.name);
    if w.path.None? then Leaves(w, a)
    else if e.Some? then Put(w, a, x.(phase := PidOpened, file := e.value))
    else Put(Created(w, x.name, ino), a, x.(phase := PidOpened, file := |w.files|))
  }

  function LockedPid(w: World, a: nat): World
    requires a in w.actors && w.actors[a].file < |w.files|
  {
    var x := w.actors[a];
    var f := w.files[x.file];
    if f.lock.Some? && f.lock.value != x.proc then Leaves(w, a)
    else Goes(w, a, PidLocked).(files := w.files[x.file := f.(lock := Some(x.proc))])
  }

  function Acquired(w: World, a: nat): World
    requires a in w.actors && PathOk(w)
  {
    var x := w.actors[a];
    if !SamePid(w, x) then Leaves(w, a)
    else Goes(w, a, Idle).(owners := w.owners[x.proc := a], busy := Without(w.busy, x.proc, a))
  }

  function Unlinked(w: World, a: nat): World
    requires a in w.actors && PathOk(w)
  {
    var x := w.actors[a];
    if Entry(w, x.name).None? then Goes(w, a, Idle) else Goes(Removed(w, x.name), a, Bare)
  }

  function RemovedDir(w: World, a: nat): World
    requires a in w.actors && PathOk(w)
  {
    var v := Goes(w, a, Idle);
    if w.path.Some? && w.dirs[w.path.value].entries == map[] then v.(path := None) else v
  }

  function Crashed(w: World, p: Proc): World {
    w.(actors := map a | a in w.actors && w.actors[a].proc != p :: w.actors[a],
       dirs := seq(|w.dirs|, i requires 0 <= i < |w.dirs| => Survives(w, w.dirs[i], p)),
       files := seq(|w.files|, i requires 0 <= i < |w.files| => if w.files[i].lock == Some(p) then w.files[i].(lock := None) else w.files[i]),
       owners := w.owners - {p}, busy := w.busy - {p})
  }

  function Survives(w: World, d: Dir, p: Proc): Dir {
    if d.lock.Some? && d.lock.value in w.actors && w.actors[d.lock.value].proc == p then d.(lock := None) else d
  }

  ghost function Step(w: World, e: Event): World
    requires Enabled(w, e)
  {
    match e
    case Begins(a, p, name) => Put(w, a, Actor(p, name, New, 0, 0, 0))
    case Mkdir(a, ino) => MadeDir(w, a, ino)
    case Lstat(a) => if w.path.None? then Leaves(w, a) else Put(w, a, w.actors[a].(phase := Seen, seen := w.dirs[w.path.value].ino))
    case Admit(a) =>
      var p := w.actors[a].proc;
      if p in w.owners then Leaves(w, a) else Goes(w, a, Admitted).(busy := w.busy[p := a])
    case OpenDir(a) => OpenedDir(w, a)
    case Flock(a) => Flocked(w, a)
    case CheckDir(a) => CheckedDir(w, a)
    case OpenPid(a, ino) => OpenedPid(w, a, ino)
    case LockPid(a) => LockedPid(w, a)
    case CheckPid(a) => Acquired(w, a)
    case BeginSweep(a) => if SamePid(w, w.actors[a]) then Goes(w, a, Sweeping) else w
    case Sweep(_, entry) => Removed(w, entry)
    case Recheck(a) => if SamePid(w, w.actors[a]) then Goes(w, a, Confirmed) else Goes(w, a, Idle)
    case Unlink(a) => Unlinked(w, a)
    case Rmdir(a) => RemovedDir(w, a)
    case GiveUp(a) => if Guarding(w.actors[a].phase) then Goes(w, a, Idle) else Leaves(w, a)
    case Close(a) => Leaves(w, a)
    case Crash(p) => Crashed(w, p)
    case OthersCreate(entry, ino) => Created(w, entry, ino)
  }

  // ----- What every step keeps -----

  /** Objects something names or pins have distinct inode numbers. */
  ghost predicate Unambiguous(w: World) {
    && (forall d: nat, k: nat :: LiveDir(w, d) && LiveDir(w, k) && w.dirs[d].ino == w.dirs[k].ino ==> d == k)
    && (forall f: nat, g: nat :: LiveFile(w, f) && LiveFile(w, g) && w.files[f].ino == w.files[g].ino ==> f == g)
  }

  /** A directory's entries are files created in it. */
  ghost predicate AtHome(w: World) { forall d :: 0 <= d < |w.dirs| ==> EntriesHome(w.dirs[d], d, w.files) }

  ghost predicate EntriesHome(d: Dir, id: nat, fs: seq<File>) {
    forall n :: n in d.entries ==> d.entries[n] < |fs| && fs[d.entries[n]].home == id
  }

  /** The directory lock is held, and the path names the directory whenever the actor acts on it by name. */
  ghost predicate Tied(w: World, a: nat, x: Actor) {
    && (HasDir(x.phase) ==> x.dir < |w.dirs|)
    && (Holds(x.phase) ==> w.dirs[x.dir].lock == Some(a))
    && (HasFile(x.phase) ==> x.file < |w.files| && w.files[x.file].home == x.dir)
    && (ActsByPath(x.phase) ==> w.path == Some(x.dir))
  }

  /** One acquisition or guard per process, and it alone keeps the process's record lock. */
  ghost predicate Listed(w: World, a: nat, x: Actor) {
    && (Acquiring(x.phase) ==> x.proc in w.busy && w.busy[x.proc] == a && x.proc !in w.owners)
    && (Guarding(x.phase) ==> x.proc in w.owners && w.owners[x.proc] == a)
    && (x.phase.PidLocked? || Guarding(x.phase) ==> x.file < |w.files| && w.files[x.file].lock == Some(x.proc))
  }

  ghost predicate Settled(w: World, a: nat, x: Actor) { Tied(w, a, x) && Listed(w, a, x) }

  ghost predicate AllSettled(w: World) { forall a :: a in w.actors ==> Settled(w, a, w.actors[a]) }

  ghost predicate Inv(w: World) { PathOk(w) && Unambiguous(w) && AtHome(w) && AllSettled(w) }

  /** Everything actor b relies on is the same in v as in w. */
  ghost predicate Undisturbed(w: World, v: World, x: Actor) {
    && |w.dirs| <= |v.dirs| && |w.files| <= |v.files|
    && (Holds(x.phase) && x.dir < |w.dirs| ==> v.dirs[x.dir].lock == w.dirs[x.dir].lock)
    && (HasFile(x.phase) && x.file < |w.files| ==>
          v.files[x.file].home == w.files[x.file].home && (w.files[x.file].lock == Some(x.proc) ==> v.files[x.file].lock == Some(x.proc)))
    && (ActsByPath(x.phase) ==> v.path == w.path)
    && (Acquiring(x.phase) && x.proc in w.busy ==> x.proc in v.busy && v.busy[x.proc] == w.busy[x.proc])
    && (Acquiring(x.phase) && x.proc !in w.owners ==> x.proc !in v.owners)
    && (Guarding(x.phase) && x.proc in w.owners ==> x.proc in v.owners && v.owners[x.proc] == w.owners[x.proc])
  }

  ghost predicate SameActor(w: World, v: World, b: nat) {
    b in v.actors ==> b in w.actors && v.actors[b] == w.actors[b] && Undisturbed(w, v, w.actors[b])
  }

  /** Steps of actor a that leave the others alone need only settle a. */
  lemma OthersStaySettled(w: World, v: World, a: nat)
    requires AllSettled(w)
    requires forall b :: b != a ==> SameActor(w, v, b)
    requires a in v.actors ==> Settled(v, a, v.actors[a])
    ensures AllSettled(v)
  {
    forall b | b in v.actors ensures Settled(v, b, v.actors[b]) {
      if b != a {
        assert SameActor(w, v, b);
        assert Settled(w, b, w.actors[b]);
      }
    }
  }

  /** What is live in v was live in w, or is one new object with a free inode number. */
  ghost predicate LiveFrom(w: World, v: World) {
    && (forall d: nat :: LiveDir(v, d) ==> DirFrom(w, v, d))
    && (forall f: nat :: LiveFile(v, f) ==> FileFrom(w, v, f))
  }

  ghost predicate DirFrom(w: World, v: World, d: nat)
    requires d < |v.dirs|
  {
    (LiveDir(w, d) && v.dirs[d].ino == w.dirs[d].ino) || (d == |w.dirs| && FreeDirIno(w, v.dirs[d].ino))
  }

  ghost predicate FileFrom(w: World, v: World, f: nat)
    requires f < |v.files|
  {
    (LiveFile(w, f) && v.files[f].ino == w.files[f].ino) || (f == |w.files| && FreeFileIno(w, v.files[f].ino))
  }

  lemma StaysUnambiguous(w: World, v: World)
    requires Unambiguous(w) && LiveFrom(w, v)
    ensures Unambiguous(v)
  {
    forall d: nat, k: nat | LiveDir(v, d) && LiveDir(v, k) && v.dirs[d].ino == v.dirs[k].ino ensures d == k {
      assert DirFrom(w, v, d) && DirFrom(w, v, k);
    }
    forall f: nat, g: nat | LiveFile(v, f) && LiveFile(v, g) && v.files[f].ino == v.files[g].ino ensures f == g {
      assert FileFrom(w, v, f) && FileFrom(w, v, g);
    }
  }

  lemma StepConcludes(w: World, v: World, a: nat)
    requires Inv(w) && PathOk(v) && AtHome(v) && LiveFrom(w, v)
    requires forall b :: b != a ==> SameActor(w, v, b)
    requires a in v.actors ==> Settled(v, a, v.actors[a])
    ensures Inv(v)
  {
    OthersStaySettled(w, v, a);
    StaysUnambiguous(w, v);
  }

  // ----- Leaving -----

  lemma OneListedPerProcess(w: World, a: nat, b: nat)
    requires a in w.actors && b in w.actors && Listed(w, a, w.actors[a]) && Listed(w, b, w.actors[b])
    requires w.actors[a].proc == w.actors[b].proc
    requires Acquiring(w.actors[a].phase) || Guarding(w.actors[a].phase)
    requires Acquiring(w.actors[b].phase) || Guarding(w.actors[b].phase)
    ensures a == b
  {
  }

  lemma LeavingIsQuiet(w: World, a: nat, b: nat)
    requires AllSettled(w) && a in w.actors && a != b
    ensures SameActor(w, Leaves(w, a), b)
  {
    if b in w.actors {
      assert Settled(w, a, w.actors[a]) && Settled(w, b, w.actors[b]);
      if w.actors[a].proc == w.actors[b].proc && HasFile(w.actors[a].phase) && HasFile(w.actors[b].phase) {
        OneListedPerProcess(w, a, b);
      }
    }
  }

  lemma LeavesKeepsInv(w: World, a: nat)
    requires Inv(w) && a in w.actors
    ensures Inv(Leaves(w, a))
  {
    var v := Leaves(w, a);
    forall b | b != a ensures SameActor(w, v, b) {
      LeavingIsQuiet(w, a, b);
    }
    StepConcludes(w, v, a);
  }

  /** A survivor's locks, files and table entries are all still there. */
  lemma SurvivorStaysSettled(w: World, p: Proc, b: nat)
    requires PathOk(w) && AllSettled(w) && b in Crashed(w, p).actors
    ensures Settled(Crashed(w, p), b, Crashed(w, p).actors[b])
  {
    assert Settled(w, b, w.actors[b]);
  }

  lemma CrashLeavesLess(w: World, p: Proc)
    requires Inv(w)
    ensures LiveFrom(w, Crashed(w, p)) && AtHome(Crashed(w, p))
  {
    var v := Crashed(w, p);
    forall d | 0 <= d < |v.dirs| ensures EntriesHome(v.dirs[d], d, v.files) {
      assert EntriesHome(w.dirs[d], d, w.files);
    }
  }

  lemma CrashKeepsInv(w: World, p: Proc)
    requires Inv(w)
    ensures Inv(Crashed(w, p))
  {
    var v := Crashed(w, p);
    forall b | b in v.actors ensures Settled(v, b, v.actors[b]) {
      SurvivorStaysSettled(w, p, b);
    }
    CrashLeavesLess(w, p);
    StaysUnambiguous(w, v);
  }

  // ----- Acquiring -----

  /** Steps that only move one actor between phases. */
  lemma GoesKeepsInv(w: World, a: nat, x: Actor)
    requires Inv(w) && (HasDir(x.phase) ==> a in w.actors && PinsDir(w.actors[a], x.dir))
    requires HasFile(x.phase) ==> a in w.actors && PinsFile(w.actors[a], x.file)
    requires Settled(Put(w, a, x), a, x)
    ensures Inv(Put(w, a, x))
  {
    StepConcludes(w, Put(w, a, x), a);
  }

  lemma MadeDirKeepsInv(w: World, a: nat, ino: nat)
    requires Inv(w) && Enabled(w, Mkdir(a, ino))
    ensures Inv(MadeDir(w, a, ino))
  {
    var v := MadeDir(w, a, ino);
    forall b | b != a ensures SameActor(w, v, b) {
      assert b in w.actors ==> Settled(w, b, w.actors[b]);
    }
    StepConcludes(w, v, a);
  }

  lemma OpenedDirKeepsInv(w: World, a: nat)
    requires Inv(w) && Enabled(w, OpenDir(a))
    ensures Inv(OpenedDir(w, a))
  {
    if w.path.None? {
      LeavesKeepsInv(w, a);
    } else {
      assert Settled(w, a, w.actors[a]);
      StepConcludes(w, OpenedDir(w, a), a);
    }
  }

  lemma FlockedKeepsInv(w: World, a: nat)
    requires Inv(w) && Enabled(w, Flock(a))
    ensures Inv(Flocked(w, a))
  {
    if w.dirs[w.actors[a].dir].lock.Some? {
      LeavesKeepsInv(w, a);
    } else {
      assert Settled(w, a, w.actors[a]);
      var v := Flocked(w, a);
      forall b | b != a ensures SameActor(w, v, b) {
        assert b in w.actors ==> Settled(w, b, w.actors[b]);
      }
      StepConcludes(w, v, a);
    }
  }

  /** The check passes only if the path names the very directory opened: its number is pinned, so it is not a reused one. */
  lemma CheckDirIsExact(w: World, a: nat)
    requires Inv(w) && Enabled(w, CheckDir(a))
    ensures a in CheckedDir(w, a).actors ==> w.path == Some(w.actors[a].dir)
    ensures w.path != Some(w.actors[a].dir) ==> CheckedDir(w, a) == Leaves(w, a)
  {
    if w.path.Some? {
      assert PinsDir(w.actors[a], w.actors[a].dir);
      assert LiveDir(w, w.actors[a].dir) && LiveDir(w, w.path.value);
    }
  }

  lemma CheckedDirKeepsInv(w: World, a: nat)
    requires Inv(w) && Enabled(w, CheckDir(a))
    ensures Inv(CheckedDir(w, a))
  {
    CheckDirIsExact(w, a);
    if CheckedDir(w, a) == Leaves(w, a) {
      LeavesKeepsInv(w, a);
    } else {
      assert Settled(w, a, w.actors[a]);
      GoesKeepsInv(w, a, w.actors[a].(phase := Checked));
    }
  }

  lemma CreatedKeepsInv(w: World, entry: Name, ino: nat)
    requires Inv(w) && w.path.Some? && Entry(w, entry).None? && FreeFileIno(w, ino)
    ensures Inv(Created(w, entry, ino))
  {
    var v := Created(w, entry, ino);
    forall b ensures SameActor(w, v, b) {
      assert b in w.actors ==> Settled(w, b, w.actors[b]);
    }
    forall f: nat | LiveFile(v, f) ensures FileFrom(w, v, f) {
    }
    assert forall b :: b in v.actors ==> Settled(w, b, w.actors[b]) && SameActor(w, v, b);
    OthersStaySettled(w, v, 0);
    StaysUnambiguous(w, v);
  }

  lemma PinKeepsInv(w: World, a: nat, f: nat)
    requires Inv(w) && At(w, a, Checked) && Entry(w, w.actors[a].name) == Some(f)
    ensures Inv(Put(w, a, w.actors[a].(phase := PidOpened, file := f)))
  {
    assert Settled(w, a, w.actors[a]);
    assert EntriesHome(w.dirs[w.path.value], w.path.value, w.files);
    assert LiveFile(w, f);
    StepConcludes(w, Put(w, a, w.actors[a].(phase := PidOpened, file := f)), a);
  }

  lemma OpenedPidKeepsInv(w: World, a: nat, ino: nat)
    requires Inv(w) && Enabled(w, OpenPid(a, ino))
    ensures Inv(OpenedPid(w, a, ino))
  {
    var e := Entry(w, w.actors[a].name);
    if w.path.None? {
      LeavesKeepsInv(w, a);
    } else if e.Some? {
      PinKeepsInv(w, a, e.value);
    } else {
      CreatedKeepsInv(w, w.actors[a].name, ino);
      PinKeepsInv(Created(w, w.actors[a].name, ino), a, |w.files|);
    }
  }

  lemma LockedPidKeepsInv(w: World, a: nat)
    requires Inv(w) && Enabled(w, LockPid(a))
    ensures Inv(LockedPid(w, a))
  {
    var x := w.actors[a];
    var f := w.files[x.file];
    if f.lock.Some? && f.lock.value != x.proc {
      LeavesKeepsInv(w, a);
    } else {
      assert Settled(w, a, x);
      var v := LockedPid(w, a);
      forall b | b != a ensures SameActor(w, v, b) {
        assert b in w.actors ==> Settled(w, b, w.actors[b]);
      }
      StepConcludes(w, v, a);
    }
  }

  lemma AcquiredKeepsInv(w: World, a: nat)
    requires Inv(w) && Enabled(w, CheckPid(a))
    ensures Inv(Acquired(w, a))
  {
    if !SamePid(w, w.actors[a]) {
      LeavesKeepsInv(w, a);
    } else {
      assert Settled(w, a, w.actors[a]);
      var v := Acquired(w, a);
      forall b | b != a ensures SameActor(w, v, b) {
        assert b in w.actors ==> Settled(w, b, w.actors[b]);
      }
      StepConcludes(w, v, a);
    }
  }

  lemma AdmitKeepsInv(w: World, a: nat)
    requires Inv(w) && Enabled(w, Admit(a))
    ensures Inv(Step(w, Admit(a)))
  {
    if w.actors[a].proc in w.owners {
      LeavesKeepsInv(w, a);
    } else {
      var v := Step(w, Admit(a));
      forall b | b != a ensures SameActor(w, v, b) {
        assert b in w.actors ==> Settled(w, b, w.actors[b]);
      }
      StepConcludes(w, v, a);
    }
  }

  // ----- Cleaning -----

  /** A guard's PID file is pinned, so its number at the path means that very file, and then its own directory. */
  lemma SamePidIsExact(w: World, a: nat)
    requires Inv(w) && a in w.actors && HasFile(w.actors[a].phase)
    ensures SamePid(w, w.actors[a]) <==> Entry(w, w.actors[a].name) == Some(w.actors[a].file)
    ensures SamePid(w, w.actors[a]) ==> w.path == Some(w.actors[a].dir)
  {
    var x := w.actors[a];
    assert Settled(w, a, x) && PinsFile(x, x.file);
    if w.path.Some? {
      assert EntriesHome(w.dirs[w.path.value], w.path.value, w.files);
      var e := Entry(w, x.name);
      if e.Some? {
        assert LiveFile(w, e.value) && LiveFile(w, x.file);
      }
    }
  }

  lemma BeginSweepKeepsInv(w: World, a: nat)
    requires Inv(w) && Enabled(w, BeginSweep(a))
    ensures Inv(Step(w, BeginSweep(a)))
  {
    if SamePid(w, w.actors[a]) {
      SamePidIsExact(w, a);
      assert Settled(w, a, w.actors[a]);
      GoesKeepsInv(w, a, w.actors[a].(phase := Sweeping));
    }
  }

  lemma RecheckKeepsInv(w: World, a: nat)
    requires Inv(w) && Enabled(w, Recheck(a))
    ensures Inv(Step(w, Recheck(a)))
  {
    assert Settled(w, a, w.actors[a]);
    GoesKeepsInv(w, a, w.actors[a].(phase := if SamePid(w, w.actors[a]) then Confirmed else Idle));
  }

  lemma RemovedKeepsInv(w: World, entry: Name)
    requires Inv(w)
    ensures Inv(Removed(w, entry))
  {
    var v := Removed(w, entry);
    forall b ensures SameActor(w, v, b) {
      assert b in w.actors ==> Settled(w, b, w.actors[b]);
    }
    OthersStaySettled(w, v, 0);
    StaysUnambiguous(w, v);
  }

  lemma UnlinkedKeepsInv(w: World, a: nat)
    requires Inv(w) && Enabled(w, Unlink(a))
    ensures Inv(Unlinked(w, a))
  {
    assert Settled(w, a, w.actors[a]);
    if Entry(w, w.actors[a].name).None? {
      GoesKeepsInv(w, a, w.actors[a].(phase := Idle));
    } else {
      var v := Removed(w, w.actors[a].name);
      RemovedKeepsInv(w, w.actors[a].name);
      assert Settled(v, a, v.actors[a]);
      GoesKeepsInv(v, a, v.actors[a].(phase := Bare));
    }
  }

  /** Removing the directory disturbs nobody: whoever else acted on the path by name would hold the same lock. */
  lemma RemovedDirKeepsInv(w: World, a: nat)
    requires Inv(w) && Enabled(w, Rmdir(a))
    ensures Inv(RemovedDir(w, a))
  {
    assert Settled(w, a, w.actors[a]);
    var v := RemovedDir(w, a);
    forall b | b != a ensures SameActor(w, v, b) {
      assert b in w.actors ==> Settled(w, b, w.actors[b]);
    }
    StepConcludes(w, v, a);
  }

  lemma GiveUpKeepsInv(w: World, a: nat)
    requires Inv(w) && Enabled(w, GiveUp(a))
    ensures Inv(Step(w, GiveUp(a)))
  {
    assert Settled(w, a, w.actors[a]);
    if Guarding(w.actors[a].phase) {
      GoesKeepsInv(w, a, w.actors[a].(phase := Idle));
    } else {
      LeavesKeepsInv(w, a);
    }
  }

  lemma LstatKeepsInv(w: World, a: nat)
    requires Inv(w) && Enabled(w, Lstat(a))
    ensures Inv(Step(w, Lstat(a)))
  {
    if w.path.None? {
      LeavesKeepsInv(w, a);
    } else {
      GoesKeepsInv(w, a, w.actors[a].(phase := Seen, seen := w.dirs[w.path.value].ino));
    }
  }

  predicate Acquires(e: Event) {
    e.Lstat? || e.Admit? || e.OpenDir? || e.Flock? || e.CheckDir? || e.OpenPid? || e.LockPid? || e.CheckPid?
  }

  lemma AcquireKeepsInv(w: World, e: Event)
    requires Inv(w) && Enabled(w, e) && Acquires(e)
    ensures Inv(Step(w, e))
  {
    match e
    case Lstat(a) => LstatKeepsInv(w, a);
    case Admit(a) => AdmitKeepsInv(w, a);
    case OpenDir(a) => OpenedDirKeepsInv(w, a);
    case Flock(a) => FlockedKeepsInv(w, a);
    case CheckDir(a) => CheckedDirKeepsInv(w, a);
    case OpenPid(a, ino) => OpenedPidKeepsInv(w, a, ino);
    case LockPid(a) => LockedPidKeepsInv(w, a);
    case CheckPid(a) => AcquiredKeepsInv(w, a);
    case _ =>
  }

  predicate Cleans(e: Event) { e.BeginSweep? || e.Sweep? || e.Recheck? || e.Unlink? || e.Rmdir? || e.GiveUp? }

  lemma CleanKeepsInv(w: World, e: Event)
    requires Inv(w) && Enabled(w, e) && Cleans(e)
    ensures Inv(Step(w, e))
  {
    match e
    case BeginSweep(a) => BeginSweepKeepsInv(w, a);
    case Sweep(_, entry) => RemovedKeepsInv(w, entry);
    case Recheck(a) => RecheckKeepsInv(w, a);
    case Unlink(a) => UnlinkedKeepsInv(w, a);
    case Rmdir(a) => RemovedDirKeepsInv(w, a);
    case GiveUp(a) => GiveUpKeepsInv(w, a);
    case _ =>
  }

  lemma ComeAndGoKeepsInv(w: World, e: Event)
    requires Inv(w) && Enabled(w, e) && (e.Begins? || e.Mkdir? || e.Close? || e.Crash? || e.OthersCreate?)
    ensures Inv(Step(w, e))
  {
    match e
    case Begins(a, p, name) => GoesKeepsInv(w, a, Actor(p, name, New, 0, 0, 0));
    case Mkdir(a, ino) => MadeDirKeepsInv(w, a, ino);
    case Close(a) => LeavesKeepsInv(w, a);
    case Crash(p) => CrashKeepsInv(w, p);
    case OthersCreate(entry, ino) => CreatedKeepsInv(w, entry, ino);
    case _ =>
  }

  lemma StepKeepsInv(w: World, e: Event)
    requires Inv(w) && Enabled(w, e)
    ensures Inv(Step(w, e))
  {
    if Acquires(e) {
      AcquireKeepsInv(w, e);
    } else if Cleans(e) {
      CleanKeepsInv(w, e);
    } else {
      ComeAndGoKeepsInv(w, e);
    }
  }

  // ----- What every run guarantees -----

  ghost predicate Leads(w: World, e: Event, v: World) { Enabled(w, e) && v == Step(w, e) }

  const Beginning := World(None, [], [], map[], map[], map[])

  ghost predicate Run(ws: seq<World>, es: seq<Event>) {
    && |ws| == |es| + 1
    && ws[0] == Beginning
    && forall i :: 0 <= i < |es| ==> Leads(ws[i], es[i], ws[i + 1])
  }

  lemma {:induction false} RunKeepsInv(ws: seq<World>, es: seq<Event>, n: nat)
    requires Run(ws, es) && n < |ws|
    ensures Inv(ws[n])
  {
    if n == 0 {
    } else {
      RunKeepsInv(ws, es, n - 1);
      assert Leads(ws[n - 1], es[n - 1], ws[(n - 1) + 1]);
      StepKeepsInv(ws[n - 1], es[n - 1]);
    }
  }

  /** The steps that delete by name: an entry, the PID entry, the directory itself. */
  predicate Deletes(e: Event, a: nat) { (e.Sweep? && e.a == a) || e == Unlink(a) || e == Rmdir(a) }

  /** In every run, whatever a guard deletes through the run path is in the directory whose lock it holds, or is that directory. */
  lemma CleanupStaysHome(ws: seq<World>, es: seq<Event>, n: nat, a: nat)
    requires Run(ws, es) && n < |es| && Deletes(es[n], a)
    ensures a in ws[n].actors
    ensures ws[n].path == Some(ws[n].actors[a].dir)
    ensures ws[n].actors[a].dir < |ws[n].dirs| && ws[n].dirs[ws[n].actors[a].dir].lock == Some(a)
  {
    RunKeepsInv(ws, es, n);
    assert Leads(ws[n], es[n], ws[n + 1]);
    assert Settled(ws[n], a, ws[n].actors[a]);
  }

  /** In every run, at most one guard holds the directory the run path names. */
  lemma OneHolder(ws: seq<World>, es: seq<Event>, n: nat, a: nat, b: nat)
    requires Run(ws, es) && n < |ws| && a in ws[n].actors && b in ws[n].actors
    requires Holds(ws[n].actors[a].phase) && ws[n].path == Some(ws[n].actors[a].dir)
    requires Holds(ws[n].actors[b].phase) && ws[n].path == Some(ws[n].actors[b].dir)
    ensures a == b
  {
    RunKeepsInv(ws, es, n);
    assert Settled(ws[n], a, ws[n].actors[a]) && Settled(ws[n], b, ws[n].actors[b]);
  }

  /** In every run, a process keeps its record lock on the PID file for as long as its guard lives. */
  lemma PidLockIsKept(ws: seq<World>, es: seq<Event>, n: nat, a: nat)
    requires Run(ws, es) && n < |ws| && a in ws[n].actors && Guarding(ws[n].actors[a].phase)
    ensures ws[n].actors[a].file < |ws[n].files|
    ensures ws[n].files[ws[n].actors[a].file].lock == Some(ws[n].actors[a].proc)
  {
    RunKeepsInv(ws, es, n);
    assert Settled(ws[n], a, ws[n].actors[a]);
  }

  /** A guard whose directory is gone deletes nothing, though a successor's entry has the same name; a late opener of it fails. */
  lemma StaleGuardIsHarmless(ws: seq<World>, es: seq<Event>, n: nat, a: nat)
    requires Run(ws, es) && n < |es| && a in ws[n].actors && ws[n].path != Some(ws[n].actors[a].dir)
    ensures es[n] == BeginSweep(a) ==> ws[n + 1] == ws[n]
    ensures es[n] == CheckDir(a) ==> ws[n + 1] == Leaves(ws[n], a)
  {
    RunKeepsInv(ws, es, n);
    assert Leads(ws[n], es[n], ws[n + 1]);
    if es[n] == BeginSweep(a) {
      SamePidIsExact(ws[n], a);
    }
    if es[n] == CheckDir(a) {
      CheckDirIsExact(ws[n], a);
    }
  }
}
