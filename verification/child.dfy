/** The two-gate start protocol between sandbox-init and a re-exec helper, as the product of both sides. */
module ChildSync {

  datatype Message = Start | Ready | Go | Abort | Exec | Error

  /** How the parent learns that the command runs: end of stream at a close-on-exec, or an explicit message. */
  datatype Want = ExecEOF | Started

  datatype Parent =
    | OnSpawn | WriteStart | ReadSetup | OnReady | WriteGo | ReadExec
    | OnFailure | WriteAbort | Close(ok: bool) | Returned(ok: bool)

  datatype Child =
    | WaitStart | Setup | WriteReady | WaitGo | Final | WriteExec
    | WriteError | AwaitAck
    | Running     // final exec done, its end of the socket closed
    | Exited      // left through fail
    | Killed

  /** What has happened: callbacks that succeeded or ran, and the final exec. */
  datatype Did = Did(spawnOk: bool, readyOk: bool, failureRan: bool, executed: bool)

  /**
   Each direction of the socket is the log of what was written and how much of it the peer has read; an end that is
   gone turns further reads of the peer into end of stream and its writes into errors.
   */
  datatype State = State(
    want: Want, parent: Parent, child: Child,
    toChild: seq<Message>, childRead: nat, toParent: seq<Message>, parentRead: nat,
    did: Did)

  predicate ParentGone(s: State) { s.parent.Returned? }

  predicate ChildGone(s: State) { s.child.Running? || s.child.Exited? || s.child.Killed? }

  datatype Event =
    | ParentStep(callbackOk: bool)  // callbackOk: what onSpawn or onReady returns
    | ChildStep(workOk: bool)       // workOk: whether setup or the final exec works
    | Kill                          // the helper dies

  predicate ParentCanRead(s: State) { s.parentRead < |s.toParent| || ChildGone(s) }

  predicate ChildCanRead(s: State) { s.childRead < |s.toChild| || ParentGone(s) }

  predicate Enabled(s: State, e: Event) {
    match e
    case ParentStep(_) =>
      !s.parent.Returned? && ((s.parent.ReadSetup? || s.parent.ReadExec?) ==> ParentCanRead(s))
    case ChildStep(_) =>
      !ChildGone(s) && ((s.child.WaitStart? || s.child.WaitGo? || s.child.AwaitAck?) ==> ChildCanRead(s))
    case Kill => !ChildGone(s)
  }

  // The parent writes m and goes on, or sees the peer gone and fails.
  function ParentWrites(s: State, m: Message, next: Parent): State {
    if ChildGone(s) then s.(parent := OnFailure) else s.(toChild := s.toChild + [m], parent := next)
  }

  function ChildWrites(s: State, m: Message, next: Child): State {
    if ParentGone(s) then s.(child := WriteError) else s.(toParent := s.toParent + [m], child := next)
  }

  function ParentMoves(s: State, callbackOk: bool): State
    requires Enabled(s, ParentStep(callbackOk))
  {
    match s.parent
    case OnSpawn => s.(parent := if callbackOk then WriteStart else OnFailure, did := s.did.(spawnOk := callbackOk))
    case WriteStart => ParentWrites(s, Start, ReadSetup)
    case ReadSetup =>
      if s.parentRead >= |s.toParent| then s.(parent := OnFailure)
      else s.(parentRead := s.parentRead + 1, parent := if s.toParent[s.parentRead] == Ready then OnReady else OnFailure)
    case OnReady => s.(parent := if callbackOk then WriteGo else OnFailure, did := s.did.(readyOk := callbackOk))
    case WriteGo => ParentWrites(s, Go, ReadExec)
    case ReadExec =>
      if s.parentRead >= |s.toParent| then s.(parent := if s.want == ExecEOF then Close(true) else OnFailure)
      else
        s.(parentRead := s.parentRead + 1,
           parent := if s.want == Started && s.toParent[s.parentRead] == Exec then Close(true) else OnFailure)
    case OnFailure => s.(did := s.did.(failureRan := true), parent := WriteAbort)
    case WriteAbort => s.(toChild := if ChildGone(s) then s.toChild else s.toChild + [Abort], parent := Close(false))
    case Close(ok) => s.(parent := Returned(ok))
  }

  function ChildMoves(s: State, workOk: bool): State
    requires Enabled(s, ChildStep(workOk))
  {
    match s.child
    case WaitStart =>
      if s.childRead >= |s.toChild| then s.(child := WriteError)
      else s.(childRead := s.childRead + 1, child := if s.toChild[s.childRead] == Start then Setup else WriteError)
    case Setup => s.(child := if workOk then WriteReady else WriteError)
    case WriteReady => ChildWrites(s, Ready, WaitGo)
    case WaitGo =>
      if s.childRead >= |s.toChild| then s.(child := WriteError)
      else s.(childRead := s.childRead + 1, child := if s.toChild[s.childRead] == Go then Final else WriteError)
    case Final =>
      if !workOk then s.(child := WriteError)
      else s.(did := s.did.(executed := true), child := if s.want == ExecEOF then Running else WriteExec)
    case WriteExec => ChildWrites(s, Exec, Running)
    case WriteError => s.(toParent := if ParentGone(s) then s.toParent else s.toParent + [Error], child := AwaitAck)
    case AwaitAck =>
      s.(childRead := if s.childRead >= |s.toChild| then s.childRead else s.childRead + 1, child := Exited)
  }

  function Step(s: State, e: Event): State
    requires Enabled(s, e)
  {
    match e
    case ParentStep(ok) => ParentMoves(s, ok)
    case ChildStep(ok) => ChildMoves(s, ok)
    case Kill => s.(child := Killed)
  }

  function Begin(want: Want): State {
    State(want, OnSpawn, WaitStart, [], 0, [], 0, Did(false, false, false, false))
  }

  /** The parent's writes: a prefix of start, go, then possibly abort; each is backed by the callback before it. */
  ghost predicate WritesBacked(s: State) {
    && (|s.toChild| <= 2 ==> s.toChild in {[], [Start], [Start, Go], [Abort], [Start, Abort]})
    && (|s.toChild| > 2 ==> s.toChild == [Start, Go, Abort])
    && (Start in s.toChild ==> s.did.spawnOk) && (Go in s.toChild ==> s.did.readyOk) && (Abort in s.toChild ==> s.did.failureRan)
  }

  /** The parent has failed and run onFailure. */
  predicate Failed(p: Parent) {
    p.WriteAbort? || p == Close(false) || p == Returned(false)
  }

  predicate Succeeded(p: Parent) {
    p == Close(true) || p == Returned(true)
  }

  /** Where the parent stands fixes what it has written and read. */
  ghost predicate ParentInv(s: State) {
    && (s.did.failureRan <==> Failed(s.parent))
    && (s.parent.OnSpawn? || s.parent.WriteStart? ==> s.toChild == [] && s.parentRead == 0)
    && (s.parent.WriteStart? ==> s.did.spawnOk)
    && (s.parent.ReadSetup? ==> s.toChild == [Start] && s.parentRead == 0)
    && (s.parent.OnReady? || s.parent.WriteGo? ==> s.toChild == [Start] && s.parentRead == 1)
    && (s.parent.OnReady? || s.parent.WriteGo? || s.parent.ReadExec? ==> [Ready] <= s.toParent)
    && (s.parent.WriteGo? ==> s.did.readyOk)
    && (s.parent.ReadExec? ==> s.toChild == [Start, Go] && s.parentRead == 1)
    && (s.parent.OnFailure? || s.parent.WriteAbort? ==> Abort !in s.toChild)
    && (Succeeded(s.parent) ==> s.toChild == [Start, Go] && ChildGone(s) && (s.did.executed || (s.want == ExecEOF && s.child.Killed?)))
  }

  /** Where the child stands fixes what it has read and written, and how far the parent can be. */
  ghost predicate ChildInv(s: State) {
    match s.child
    case WaitStart =>
      s.childRead == 0 && s.toParent == [] && !s.did.executed && (Start in s.toChild ==> s.parent.ReadSetup?)
    case Setup => s.parent.ReadSetup? && s.childRead == 1 && s.toParent == [] && !s.did.executed
    case WriteReady => s.parent.ReadSetup? && s.childRead == 1 && s.toParent == [] && !s.did.executed
    case WaitGo =>
      && s.childRead == 1 && [Start] <= s.toChild && s.toParent == [Ready] && !s.did.executed
      && (Go in s.toChild ==> s.parent.ReadExec?)
    case Final => s.parent.ReadExec? && s.childRead == 2 && s.toParent == [Ready] && !s.did.executed
    case WriteExec => s.parent.ReadExec? && s.childRead == 2 && s.toParent == [Ready] && s.did.executed && s.want == Started
    case Running => s.did.executed && s.toParent == if s.want == ExecEOF then [Ready] else [Ready, Exec]
    case WriteError =>
      && !s.did.executed && s.toParent in {[], [Ready]}
      && (|| s.did.failureRan
          || (s.parent.ReadSetup? && s.childRead == 1 && s.toParent == [])
          || (s.parent.ReadExec? && s.childRead == 2 && s.toParent == [Ready]))
    case AwaitAck =>
      && !s.did.executed
      && (|| s.did.failureRan
          || (s.childRead == |s.toChild| && (s.parent.OnFailure?
                || (s.parent.ReadSetup? && s.toParent == [Error]) || (s.parent.ReadExec? && s.toParent == [Ready, Error]))))
    case Exited => s.did.failureRan && !s.did.executed
    case Killed => true
  }

  ghost predicate Inv(s: State) {
    && s.parentRead <= |s.toParent| && s.childRead <= |s.toChild|
    && WritesBacked(s) && ParentInv(s) && ChildInv(s)
    && (s.did.executed ==> [Start, Go] <= s.toChild)
    && (Exec in s.toParent ==> s.child.Running?)
  }

  lemma Appended(s: State)
    requires WritesBacked(s) && Abort !in s.toChild
    ensures [] + [Start] == [Start] && [Start] + [Go] == [Start, Go]
    ensures s.toChild in {[], [Start], [Start, Go]}
    ensures s.toChild + [Abort] in {[Abort], [Start, Abort], [Start, Go, Abort]}
  {
    assert [] + [Abort] == [Abort] && [Start] + [Abort] == [Start, Abort] && [Start, Go] + [Abort] == [Start, Go, Abort];
    assert Abort in [Start, Abort];
  }

  lemma ParentCalls(s: State, ok: bool)
    requires Inv(s) && Enabled(s, ParentStep(ok)) && (s.parent.OnSpawn? || s.parent.OnReady? || s.parent.OnFailure? || s.parent.Close?)
    ensures Inv(Step(s, ParentStep(ok)))
  {
  }

  lemma ParentStarts(s: State, ok: bool)
    requires Inv(s) && Enabled(s, ParentStep(ok)) && (s.parent.WriteStart?)
    ensures Inv(Step(s, ParentStep(ok)))
  {
    Appended(s);
  }

  lemma ParentGoes(s: State, ok: bool)
    requires Inv(s) && Enabled(s, ParentStep(ok)) && (s.parent.WriteGo?)
    ensures Inv(Step(s, ParentStep(ok)))
  {
    Appended(s);
  }

  lemma ParentAborts(s: State, ok: bool)
    requires Inv(s) && Enabled(s, ParentStep(ok)) && (s.parent.WriteAbort?)
    ensures Inv(Step(s, ParentStep(ok)))
  {
    Appended(s);
  }

  lemma ParentReads(s: State, ok: bool)
    requires Inv(s) && Enabled(s, ParentStep(ok)) && (s.parent.ReadSetup? || s.parent.ReadExec?)
    ensures Inv(Step(s, ParentStep(ok)))
  {
  }

  lemma ParentKeepsInv(s: State, ok: bool)
    requires Inv(s) && Enabled(s, ParentStep(ok))
    ensures Inv(Step(s, ParentStep(ok)))
  {
    match s.parent
    case WriteStart => ParentStarts(s, ok);
    case WriteGo => ParentGoes(s, ok);
    case WriteAbort => ParentAborts(s, ok);
    case ReadSetup => ParentReads(s, ok);
    case ReadExec => ParentReads(s, ok);
    case _ => ParentCalls(s, ok);
  }

  lemma ChildReads(s: State, ok: bool)
    requires Inv(s) && Enabled(s, ChildStep(ok)) && (s.child.WaitStart? || s.child.WaitGo? || s.child.AwaitAck?)
    ensures Inv(Step(s, ChildStep(ok)))
  {
  }

  lemma ChildWorks(s: State, ok: bool)
    requires Inv(s) && Enabled(s, ChildStep(ok)) && (s.child.Setup? || s.child.Final?)
    ensures Inv(Step(s, ChildStep(ok)))
  {
  }

  lemma ChildReports(s: State, ok: bool)
    requires Inv(s) && Enabled(s, ChildStep(ok)) && (s.child.WriteReady? || s.child.WriteExec?)
    ensures Inv(Step(s, ChildStep(ok)))
  {
    assert [] + [Ready] == [Ready] && [Ready] + [Exec] == [Ready, Exec];
  }

  lemma ChildFails(s: State, ok: bool)
    requires Inv(s) && Enabled(s, ChildStep(ok)) && (s.child.WriteError?)
    ensures Inv(Step(s, ChildStep(ok)))
  {
    assert [] + [Error] == [Error] && [Ready] + [Error] == [Ready, Error];
  }

  lemma ChildKeepsInv(s: State, ok: bool)
    requires Inv(s) && Enabled(s, ChildStep(ok))
    ensures Inv(Step(s, ChildStep(ok)))
  {
    match s.child
    case Setup => ChildWorks(s, ok);
    case Final => ChildWorks(s, ok);
    case WriteReady => ChildReports(s, ok);
    case WriteExec => ChildReports(s, ok);
    case WriteError => ChildFails(s, ok);
    case _ => ChildReads(s, ok);
  }

  /** Both sides have ended. */
  predicate Ended(s: State) {
    s.parent.Returned? && ChildGone(s)
  }

  /** Some side can always go on without the helper having to die. */
  lemma NoDeadlock(s: State)
    requires Inv(s) && !Ended(s)
    ensures Enabled(s, ParentStep(true)) || Enabled(s, ChildStep(true))
  {
  }

  function ParentRank(p: Parent): nat {
    match p
    case OnSpawn => 9 case WriteStart => 8 case ReadSetup => 7 case OnReady => 6 case WriteGo => 5 case ReadExec => 4
    case OnFailure => 3 case WriteAbort => 2 case Close(_) => 1 case Returned(_) => 0
  }

  function ChildRank(c: Child): nat {
    match c
    case WaitStart => 8 case Setup => 7 case WriteReady => 6 case WaitGo => 5 case Final => 4 case WriteExec => 3
    case WriteError => 2 case AwaitAck => 1 case _ => 0
  }

  function Rank(s: State): nat {
    ParentRank(s.parent) + ChildRank(s.child)
  }

  lemma ParentDecreasesRank(s: State, ok: bool)
    requires Enabled(s, ParentStep(ok))
    ensures ParentRank(ParentMoves(s, ok).parent) < ParentRank(s.parent) && ParentMoves(s, ok).child == s.child
  {
  }

  lemma ChildDecreasesRank(s: State, ok: bool)
    requires Enabled(s, ChildStep(ok))
    ensures ChildRank(ChildMoves(s, ok).child) < ChildRank(s.child) && ChildMoves(s, ok).parent == s.parent
  {
  }

  lemma KillKeepsInv(s: State)
    requires Inv(s) && Enabled(s, Kill)
    ensures Inv(Step(s, Kill)) && ChildRank(s.child) > 0
  {
  }

  ghost predicate Leads(s: State, e: Event, t: State) { Enabled(s, e) && t == Step(s, e) }

  ghost predicate Run(ss: seq<State>, es: seq<Event>) {
    && |ss| == |es| + 1 && (exists want :: ss[0] == Begin(want))
    && forall k :: 0 <= k < |es| ==> Leads(ss[k], es[k], ss[k + 1])
  }

  lemma StepKeepsInv(s: State, e: Event)
    requires Inv(s) && Enabled(s, e)
    ensures Inv(Step(s, e)) && Rank(Step(s, e)) < Rank(s)
  {
    match e
    case ParentStep(ok) =>
      ParentKeepsInv(s, ok);
      ParentDecreasesRank(s, ok);
    case ChildStep(ok) =>
      ChildKeepsInv(s, ok);
      ChildDecreasesRank(s, ok);
    case Kill =>
      KillKeepsInv(s);
  }

  lemma {:induction false} RunKeepsInv(ss: seq<State>, es: seq<Event>, n: nat)
    requires Run(ss, es) && n < |ss|
    ensures Inv(ss[n]) && Rank(ss[n]) + n <= 17
  {
    if n == 0 {
    } else {
      RunKeepsInv(ss, es, n - 1);
      assert Leads(ss[n - 1], es[n - 1], ss[(n - 1) + 1]);
      StepKeepsInv(ss[n - 1], es[n - 1]);
    }
  }

  /**
   In every interleaving, with the helper dying at any point: the command is executed only after both callbacks
   succeeded, a helper that leaves through fail does so after onFailure ran, the parent's verdict is right, and the
   protocol neither deadlocks nor goes on for more than seventeen steps.
   */
  lemma ProtocolIsSafe(ss: seq<State>, es: seq<Event>, n: nat)
    requires Run(ss, es) && n < |ss|
    ensures ss[n].did.executed ==> ss[n].did.spawnOk && ss[n].did.readyOk
    ensures ss[n].child == Exited ==> ss[n].did.failureRan
    ensures ss[n].parent == Returned(true) ==>
              ss[n].did.spawnOk && ss[n].did.readyOk && (ss[n].did.executed || (ss[n].want == ExecEOF && ss[n].child == Killed))
    ensures ss[n].parent == Returned(false) ==> ss[n].did.failureRan
    ensures Ended(ss[n]) || Enabled(ss[n], ParentStep(true)) || Enabled(ss[n], ChildStep(true))
    ensures |es| <= 17
  {
    RunKeepsInv(ss, es, n);
    RunKeepsInv(ss, es, |es|);
    if !Ended(ss[n]) {
      NoDeadlock(ss[n]);
    }
    assert ss[n].did.executed ==> Start in ss[n].toChild && Go in ss[n].toChild by {
      if ss[n].did.executed {
        assert ss[n].toChild[0] == Start && ss[n].toChild[1] == Go;
      }
    }
  }
}
