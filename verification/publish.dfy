/** Publishing one fresh file under a path that anybody may unlink or replace at any moment. */
module Publish {

  datatype Option<T> = None | Some(value: T)

  /** A file: its inode number, which may be reused once the file is gone, and its birth, which may not. */
  datatype File = File(ino: nat, birth: nat)

  datatype Pc =
    | Write | CheckPath | OpenGuard | CheckGuard | CloseCreated | OpenVerifier | CheckVerifier | Validate | CheckFinal
    | RemoveCheck | Remove | CloseAll | Done

  /** What the path names, how many files have been born, and the publisher's open descriptors. */
  datatype Files = Files(path: Option<File>, births: nat, created: Option<File>, guard: Option<File>, verifier: Option<File>)

  /** Inode numbers recorded by the stat calls. */
  datatype Stats = Stats(created: nat, guard: nat, verifier: nat)

  /**
   For the statements below: the file whose content was validated, the file a successful run last saw at the path, the
   file cleanup unlinked, whether the path was touched between cleanup's check and its unlink, and whether cleanup ran
   without a fault of its own.
   */
  datatype Log = Log(validated: Option<File>, seen: Option<File>, removed: Option<File>, raced: bool, swept: bool)

  /** commitFreshLocationFile with the file it created, its owned flag and its result. */
  datatype State = State(pc: Pc, files: Files, stats: Stats, owned: bool, ok: bool, made: File, log: Log)

  /** After the exclusive create and the first stat. */
  function Begin(f: File): State {
    State(Write, Files(Some(f), f.birth + 1, Some(f), None, None), Stats(f.ino, 0, 0), true, false, f,
          Log(None, None, None, false, false))
  }

  /** A file that has a name or an open descriptor keeps its inode number. */
  predicate Live(fs: Files, f: File) {
    fs.path == Some(f) || fs.created == Some(f) || fs.guard == Some(f) || fs.verifier == Some(f)
  }

  /** os.SameFile of a recorded stat and what the path names now. */
  predicate SameAtPath(fs: Files, info: nat) {
    fs.path.Some? && fs.path.value.ino == info
  }

  function ToCleanup(s: State): State {
    s.(pc := if s.owned then RemoveCheck else CloseAll)
  }

  function GiveUp(s: State): State {
    ToCleanup(s.(owned := false))
  }

  /** One system call of the publisher; fault makes it fail. */
  function Advance(s: State, fault: bool): State {
    var path := s.files.path;
    match s.pc
    case Write => if fault then ToCleanup(s) else s.(pc := CheckPath)
    case CheckPath => if fault || !SameAtPath(s.files, s.stats.created) then GiveUp(s) else s.(pc := OpenGuard)
    case OpenGuard =>
      if fault || path.None? then ToCleanup(s)
      else s.(files := s.files.(guard := path), stats := s.stats.(guard := path.value.ino), pc := CheckGuard)
    case CheckGuard =>
      if fault then ToCleanup(s) else if s.stats.guard != s.stats.created then GiveUp(s) else s.(pc := CloseCreated)
    case CloseCreated =>
      var closed := s.(files := s.files.(created := None));
      if fault then ToCleanup(closed) else closed.(pc := OpenVerifier)
    case OpenVerifier =>
      if fault || path.None? then ToCleanup(s)
      else s.(files := s.files.(verifier := path), stats := s.stats.(verifier := path.value.ino), pc := CheckVerifier)
    case CheckVerifier =>
      if fault then ToCleanup(s) else if s.stats.verifier != s.stats.guard then GiveUp(s) else s.(pc := Validate)
    case Validate => if fault then ToCleanup(s) else s.(log := s.log.(validated := s.files.verifier), pc := CheckFinal)
    case CheckFinal =>
      if fault || !SameAtPath(s.files, s.stats.verifier) then GiveUp(s)
      else s.(owned := false, ok := true, log := s.log.(seen := path), pc := CloseAll)
    case RemoveCheck =>
      if fault then s.(pc := CloseAll)
      else if !SameAtPath(s.files, s.stats.created) then s.(pc := CloseAll, log := s.log.(swept := true))
      else s.(pc := Remove)
    case Remove =>
      if fault then s.(pc := CloseAll)
      else s.(files := s.files.(path := None), log := s.log.(removed := path, swept := true), pc := CloseAll)
    case CloseAll => s.(files := s.files.(created := None, guard := None, verifier := None), pc := Done)
    case Done => s
  }

  datatype Event = Publisher(fault: bool) | Unlink | Replace(ino: nat)

  /** Anybody may unlink the path or put a new file there; a new file's inode number is not that of a live one. */
  predicate Enabled(s: State, e: Event) {
    match e
    case Publisher(_) => s.pc != Done
    case Unlink => s.files.path.Some?
    case Replace(ino) =>
      && (s.files.path.Some? ==> s.files.path.value.ino != ino) && (s.files.created.Some? ==> s.files.created.value.ino != ino)
      && (s.files.guard.Some? ==> s.files.guard.value.ino != ino) && (s.files.verifier.Some? ==> s.files.verifier.value.ino != ino)
  }

  function Step(s: State, e: Event): State
    requires Enabled(s, e)
  {
    match e
    case Publisher(fault) => Advance(s, fault)
    case Unlink => s.(files := s.files.(path := None), log := s.log.(raced := s.log.raced || s.pc == Remove))
    case Replace(ino) =>
      s.(files := s.files.(path := Some(File(ino, s.files.births)), births := s.files.births + 1),
         log := s.log.(raced := s.log.raced || s.pc == Remove))
  }

  /** Live files with the same inode number are the same file. */
  ghost predicate Unambiguous(fs: Files) {
    && (forall f, g :: Live(fs, f) && Live(fs, g) && f.ino == g.ino ==> f == g)
    && (forall f :: Live(fs, f) ==> f.birth < fs.births)
  }

  predicate BeforeClose(pc: Pc) {
    pc in {Write, CheckPath, OpenGuard, CheckGuard, CloseCreated}
  }

  /** Which descriptors pin the created file, and what has been established about it, at each point. */
  ghost predicate Pinned(s: State) {
    && s.stats.created == s.made.ino
    // While cleanup may still remove the path, a descriptor pins the created file.
    && (s.owned && s.pc != Done ==> s.files.created == Some(s.made) || s.files.guard == Some(s.made))
    && (BeforeClose(s.pc) ==> s.owned && s.files.created == Some(s.made))
    && (s.pc in {CloseCreated, OpenVerifier, CheckVerifier, Validate, CheckFinal} ==> s.owned && s.files.guard == Some(s.made))
    && (s.files.guard.Some? ==> s.stats.guard == s.files.guard.value.ino)
    && (s.files.verifier.Some? ==> s.stats.verifier == s.files.verifier.value.ino)
    && (s.pc == CheckGuard ==> s.files.guard.Some?)
    && (s.pc == CheckVerifier ==> s.files.verifier.Some?)
    && (s.pc in {Validate, CheckFinal} ==> s.files.verifier == Some(s.made))
    && (s.pc == CheckFinal ==> s.log.validated == Some(s.made))
    && (s.pc in {RemoveCheck, Remove} ==> s.owned && !s.ok)
    && (s.ok ==> s.log.validated == Some(s.made) && s.log.seen == Some(s.made) && s.log.removed == None)
    && (s.pc != CloseAll && s.pc != Done ==> s.log.removed == None && !s.ok)
    && (s.log.raced ==> s.pc in {Remove, CloseAll, Done})
    && (s.pc == Remove && !s.log.raced ==> s.files.path == Some(s.made))
    && (s.log.removed.Some? && s.log.removed != Some(s.made) ==> s.log.raced)
    && s.made.birth < s.files.births && (s.log.swept ==> s.files.path != Some(s.made))
    && (s.pc in {CloseAll, Done} && s.owned && !s.log.swept ==> s.log.removed == None)
  }

  /** From fs to gs descriptors are closed or opened on what the path named, and no file is born. */
  ghost predicate NothingNew(fs: Files, gs: Files) {
    && gs.births == fs.births
    && (gs.path == None || gs.path == fs.path) && (gs.created == None || gs.created == fs.created)
    && (gs.guard == None || gs.guard == fs.guard || gs.guard == fs.path)
    && (gs.verifier == None || gs.verifier == fs.verifier || gs.verifier == fs.path)
  }

  lemma NothingNewUnambiguous(fs: Files, gs: Files)
    requires Unambiguous(fs) && NothingNew(fs, gs)
    ensures Unambiguous(gs)
  {
    forall f | Live(gs, f) ensures Live(fs, f) {
    }
  }

  lemma AdvanceMakesNothingNew(s: State, fault: bool)
    ensures Advance(s, fault).made == s.made && NothingNew(s.files, Advance(s, fault).files)
  {
  }

  lemma OthersUnambiguous(s: State, e: Event)
    requires Unambiguous(s.files) && Enabled(s, e) && !e.Publisher?
    ensures Unambiguous(Step(s, e).files)
  {
    var t := Step(s, e);
    forall f | Live(t.files, f) ensures Live(s.files, f) || (e.Replace? && f == File(e.ino, s.files.births)) {
    }
    if e.Replace? {
      forall f | Live(t.files, f) && f.ino == e.ino ensures f == File(e.ino, s.files.births) {
      }
    }
  }

  /** An inode number recorded from a file that is still live identifies that file at the path. */
  lemma Identified(fs: Files, f: File)
    requires Unambiguous(fs) && Live(fs, f)
    ensures SameAtPath(fs, f.ino) ==> fs.path == Some(f)
    ensures fs.guard.Some? && fs.guard.value.ino == f.ino ==> fs.guard == Some(f)
    ensures fs.verifier.Some? && fs.verifier.value.ino == f.ino ==> fs.verifier == Some(f)
  {
    assert fs.path.Some? ==> Live(fs, fs.path.value);
    assert fs.guard.Some? ==> Live(fs, fs.guard.value);
    assert fs.verifier.Some? ==> Live(fs, fs.verifier.value);
  }

  lemma MadeIdentified(s: State)
    requires Unambiguous(s.files) && Pinned(s) && s.owned && s.pc != Done
    ensures SameAtPath(s.files, s.made.ino) ==> s.files.path == Some(s.made)
    ensures s.files.guard.Some? && s.files.guard.value.ino == s.made.ino ==> s.files.guard == Some(s.made)
    ensures s.files.verifier.Some? && s.files.verifier.value.ino == s.made.ino ==> s.files.verifier == Some(s.made)
  {
    assert Live(s.files, s.made);
    Identified(s.files, s.made);
  }

  lemma WritingKeepsPins(s: State, fault: bool)
    requires Unambiguous(s.files) && Pinned(s) && BeforeClose(s.pc)
    ensures Pinned(Advance(s, fault))
  {
    MadeIdentified(s);
  }

  lemma VerifyingKeepsPins(s: State, fault: bool)
    requires Unambiguous(s.files) && Pinned(s) && s.pc in {OpenVerifier, CheckVerifier, Validate, CheckFinal}
    ensures Pinned(Advance(s, fault))
  {
    MadeIdentified(s);
  }

  lemma CleaningKeepsPins(s: State, fault: bool)
    requires Unambiguous(s.files) && Pinned(s) && s.pc in {RemoveCheck, Remove, CloseAll}
    ensures Pinned(Advance(s, fault))
  {
    if s.pc == RemoveCheck {
      MadeIdentified(s);
    }
  }

  lemma AdvanceKeepsPins(s: State, fault: bool)
    requires Unambiguous(s.files) && Pinned(s) && s.pc != Done
    ensures Pinned(Advance(s, fault))
  {
    if BeforeClose(s.pc) {
      WritingKeepsPins(s, fault);
    } else if s.pc in {OpenVerifier, CheckVerifier, Validate, CheckFinal} {
      VerifyingKeepsPins(s, fault);
    } else {
      CleaningKeepsPins(s, fault);
    }
  }

  lemma OthersKeepPins(s: State, e: Event)
    requires Pinned(s) && Enabled(s, e) && !e.Publisher?
    ensures Pinned(Step(s, e))
  {
  }

  ghost predicate Leads(s: State, e: Event, t: State) {
    Enabled(s, e) && t == Step(s, e)
  }

  ghost predicate Run(ss: seq<State>, es: seq<Event>) {
    && |ss| == |es| + 1 && ss[0] == Begin(ss[0].made)
    && forall k :: 0 <= k < |es| ==> Leads(ss[k], es[k], ss[k + 1])
  }

  lemma StepKeepsInv(s: State, e: Event)
    requires Enabled(s, e) && Unambiguous(s.files) && Pinned(s)
    ensures Unambiguous(Step(s, e).files) && Pinned(Step(s, e))
  {
    match e
    case Publisher(fault) =>
      AdvanceMakesNothingNew(s, fault);
      NothingNewUnambiguous(s.files, Advance(s, fault).files);
      AdvanceKeepsPins(s, fault);
    case _ =>
      OthersUnambiguous(s, e);
      OthersKeepPins(s, e);
  }

  lemma {:induction false} RunKeepsInv(ss: seq<State>, es: seq<Event>, n: nat)
    requires Run(ss, es) && n < |ss|
    ensures Unambiguous(ss[n].files) && Pinned(ss[n])
  {
    if n == 0 {
    } else {
      RunKeepsInv(ss, es, n - 1);
      assert Leads(ss[n - 1], es[n - 1], ss[(n - 1) + 1]);
      StepKeepsInv(ss[n - 1], es[n - 1]);
    }
  }

  /**
   However the path is unlinked and replaced and wherever the publisher fails: as long as cleanup may remove the path a
   descriptor pins the created file, so the cleanup check cannot mistake a recycled inode for it; success means that the
   created file was validated and was at the path at the last check; cleanup that ran leaves no incomplete file.
   */
  lemma PublicationIsSafe(ss: seq<State>, es: seq<Event>, n: nat)
    requires Run(ss, es) && n < |ss|
    ensures ss[n].owned && ss[n].pc != Done ==> Some(ss[n].made) in {ss[n].files.created, ss[n].files.guard}
    ensures ss[n].pc == RemoveCheck ==> (SameAtPath(ss[n].files, ss[n].stats.created) <==> ss[n].files.path == Some(ss[n].made))
    ensures ss[n].ok ==> ss[n].log.validated == Some(ss[n].made) && ss[n].log.seen == Some(ss[n].made)
    ensures ss[n].log.swept ==> ss[n].files.path != Some(ss[n].made)
    ensures ss[n].log.removed.Some? && !ss[n].log.raced ==> ss[n].log.removed == Some(ss[n].made)
  {
    RunKeepsInv(ss, es, n);
    if ss[n].pc == RemoveCheck {
      assert Live(ss[n].files, ss[n].made);
      Identified(ss[n].files, ss[n].made);
    }
  }

  /** Nothing protects the path between cleanup's check and its unlink: this run removes a replacement. */
  lemma ReplacementCanBeRemoved() returns (ss: seq<State>, es: seq<Event>)
    ensures Run(ss, es)
    ensures var last := ss[|es|]; last.log.removed.Some? && last.log.removed != Some(last.made)
  {
    var s0 := Begin(File(7, 0));
    var s1 := Step(s0, Publisher(true));
    var s2 := Step(s1, Publisher(false));
    var s3 := Step(s2, Replace(8));
    ss := [s0, s1, s2, s3, Step(s3, Publisher(false))];
    es := [Publisher(true), Publisher(false), Replace(8), Publisher(false)];
  }

  /** Nobody but others acted from m + 1 up to n. */
  ghost predicate OthersOnly(es: seq<Event>, m: nat, n: nat)
    requires n <= |es|
  {
    forall k :: m < k < n ==> !es[k].Publisher?
  }

  /** Step m is the cleanup check that passed before the unlink at n, with the created file at the path. */
  ghost predicate Window(ss: seq<State>, es: seq<Event>, m: nat, n: nat)
    requires |ss| == |es| + 1 && n <= |es|
  {
    && m < n && ss[m].pc == RemoveCheck && es[m] == Publisher(false) && ss[m].files.path == Some(ss[m].made)
    && ss[m + 1] == ss[m].(pc := Remove)
    && OthersOnly(es, m, n)
  }

  /** Every unlink by cleanup has a passed check before it with only others acting in between. */
  lemma {:induction false} CheckedBeforeRemoval(ss: seq<State>, es: seq<Event>, n: nat) returns (m: nat)
    requires Run(ss, es) && n <= |es| && ss[n].pc == Remove
    ensures Window(ss, es, m, n) && ss[n].made == ss[m].made
    decreases n
  {
    if n == 0 {
      assert false;
    } else {
      assert Leads(ss[n - 1], es[n - 1], ss[(n - 1) + 1]);
      if es[n - 1].Publisher? {
        m := n - 1;
        PublicationIsSafe(ss, es, m);
      } else {
        m := CheckedBeforeRemoval(ss, es, n - 1);
      }
    }
  }

  /**
   What cleanup's unlink at n removes, by what others did since the check at m that allowed it: the created file exactly
   if they did nothing, another's file exactly if the last thing they did was to put one there, and otherwise nothing.
   */
  lemma ForeignRemoval(ss: seq<State>, es: seq<Event>, m: nat, n: nat)
    requires Run(ss, es) && n < |es| && ss[n].pc == Remove && es[n] == Publisher(false)
    requires m < n && ss[m].pc == RemoveCheck && es[m] == Publisher(false) && OthersOnly(es, m, n)
    ensures ss[n + 1].log.removed == Some(ss[n].made) <==> n == m + 1
    ensures ss[n + 1].log.removed.Some? && ss[n + 1].log.removed != Some(ss[n].made) <==> n > m + 1 && es[n - 1].Replace?
    ensures ss[n + 1].log.removed.None? <==> n > m + 1 && es[n - 1].Unlink?
  {
    assert Leads(ss[n], es[n], ss[n + 1]);
    assert Leads(ss[n - 1], es[n - 1], ss[(n - 1) + 1]);
    if n == m + 1 {
      PublicationIsSafe(ss, es, m);
    } else {
      RunKeepsInv(ss, es, n - 1);
    }
  }
}
