/** The packed admission word of the memory-report stream: a paused bit over a count of active attempts. */
module Admission {

  const PAUSED: nat := 0x8000_0000_0000_0000
  const MASK: nat := 0x7fff_ffff_ffff_ffff

  // A word is below 2 * PAUSED: its top bit is the paused gate, its low 63 bits (word & MASK) the count.
  predicate IsPaused(w: nat) { w >= PAUSED }

  function Count(w: nat): nat { if IsPaused(w) then w - PAUSED else w }

  function Pause(w: nat): nat { if IsPaused(w) then w else w + PAUSED }

  function Resume(w: nat): nat { if IsPaused(w) then w - PAUSED else w }

  type Thread = nat

  /** Where a thread stands: Top is before an atomic load, Loaded(w) before the compare-and-swap that follows it. */
  datatype Pc =
    | Idle
    | BeginTop | BeginLoaded(w: nat)
    | Attempting                       // admitted: waiting for or holding the stream mutex
    | EndTop | EndLoaded(w: nat)
    | PauseTop | PauseLoaded(w: nat)
    | Draining | Drained
    | ResumeTop | ResumeLoaded(w: nat)
    | Panicked

  /** The atomic word and every thread using it; threads absent from the map are idle. */
  datatype State = State(word: nat, threads: map<Thread, Pc>)

  function At(s: State, t: Thread): Pc {
    if t in s.threads then s.threads[t] else Idle
  }

  function Move(s: State, t: Thread, pc: Pc): State {
    s.(threads := s.threads[t := pc])
  }

  datatype Call = BeginAttempt | PauseAndDrain | ResumeEpoch

  /** The next atomic action of thread t; an idle thread makes the given call. */
  function Next(s: State, t: Thread, call: Call): State {
    match At(s, t)
    case Idle =>
      Move(s, t, match call { case BeginAttempt => BeginTop case PauseAndDrain => PauseTop case ResumeEpoch => ResumeTop })
    case BeginTop => Move(s, t, BeginLoaded(s.word))
    case BeginLoaded(w) =>
      if IsPaused(w) || Count(w) == MASK then Move(s, t, Idle)
      else if s.word == w then Move(s.(word := w + 1), t, Attempting)
      else Move(s, t, BeginTop)
    case Attempting => Move(s, t, EndTop)
    case EndTop => Move(s, t, EndLoaded(s.word))
    case EndLoaded(w) =>
      if Count(w) == 0 then Move(s, t, Panicked)
      else if s.word == w then Move(s.(word := w - 1), t, Idle)
      else Move(s, t, EndTop)
    case PauseTop => Move(s, t, PauseLoaded(s.word))
    case PauseLoaded(w) =>
      if IsPaused(w) then Move(s, t, Draining)
      else if s.word == w then Move(s.(word := Pause(w)), t, Draining)
      else Move(s, t, PauseTop)
    case Draining => if s.word == PAUSED then Move(s, t, Drained) else s
    case Drained => Move(s, t, Idle)
    case ResumeTop => Move(s, t, ResumeLoaded(s.word))
    case ResumeLoaded(w) =>
      if !IsPaused(w) then Move(s, t, Idle)
      else if s.word == w then Move(s.(word := Resume(w)), t, Idle)
      else Move(s, t, ResumeTop)
    case Panicked => s
  }

  predicate Holds(pc: Pc) {
    pc.Attempting? || pc.EndTop? || pc.EndLoaded?
  }

  /** Attempts admitted and not finished. */
  function Active(s: State): set<Thread> {
    set t | t in s.threads && Holds(s.threads[t])
  }

  ghost predicate Inv(s: State) {
    && s.word < 2 * PAUSED
    && Count(s.word) == |Active(s)|
    && (forall t :: t in s.threads ==> s.threads[t] != Panicked)
    && (forall t :: t in s.threads && s.threads[t].EndLoaded? ==> Count(s.threads[t].w) > 0)
  }

  lemma ActiveAfterMove(s: State, t: Thread, pc: Pc)
    ensures Active(Move(s, t, pc)) == if Holds(pc) then Active(s) + {t} else Active(s) - {t}
  {
  }

  /** A thread's move that changes neither the word nor whether the thread holds an admission. */
  lemma QuietMove(s: State, t: Thread, pc: Pc)
    requires Inv(s) && Holds(pc) == Holds(At(s, t)) && pc != Panicked
    requires pc.EndLoaded? ==> pc.w == s.word
    ensures Inv(Move(s, t, pc))
  {
    ActiveAfterMove(s, t, pc);
    if Holds(pc) {
      assert t in Active(s) && Active(s) + {t} == Active(s);
    } else {
      assert Active(s) - {t} == Active(s);
    }
  }

  lemma Admit(s: State, t: Thread)
    requires Inv(s) && !Holds(At(s, t)) && !IsPaused(s.word) && Count(s.word) < MASK
    ensures Inv(Move(s.(word := s.word + 1), t, Attempting))
  {
    ActiveAfterMove(s.(word := s.word + 1), t, Attempting);
    assert Active(s.(word := s.word + 1)) == Active(s) && t !in Active(s);
  }

  lemma Release(s: State, t: Thread)
    requires Inv(s) && Holds(At(s, t)) && Count(s.word) > 0
    ensures Inv(Move(s.(word := s.word - 1), t, Idle))
  {
    ActiveAfterMove(s.(word := s.word - 1), t, Idle);
    assert Active(s.(word := s.word - 1)) == Active(s) && t in Active(s);
  }

  /** Flipping the paused bit leaves the count alone. */
  lemma FlipGate(s: State, t: Thread, w: nat, pc: Pc)
    requires Inv(s) && !Holds(At(s, t)) && (pc == Draining || pc == Idle) && (w == Pause(s.word) || w == Resume(s.word))
    ensures Inv(Move(s.(word := w), t, pc))
  {
    assert Active(s.(word := w)) == Active(s);
    QuietMove(s.(word := w), t, pc);
  }

  lemma NextKeepsInv(s: State, t: Thread, call: Call)
    requires Inv(s)
    ensures Inv(Next(s, t, call))
  {
    match At(s, t)
    case BeginLoaded(w) =>
      if !IsPaused(w) && Count(w) != MASK && s.word == w {
        Admit(s, t);
      } else {
        QuietMove(s, t, At(Next(s, t, call), t));
      }
    case EndLoaded(w) =>
      if s.word == w {
        Release(s, t);
      } else {
        QuietMove(s, t, EndTop);
      }
    case PauseLoaded(w) =>
      if !IsPaused(w) && s.word == w {
        FlipGate(s, t, Pause(w), Draining);
      } else {
        QuietMove(s, t, At(Next(s, t, call), t));
      }
    case ResumeLoaded(w) =>
      if IsPaused(w) && s.word == w {
        FlipGate(s, t, Resume(w), Idle);
      } else {
        QuietMove(s, t, At(Next(s, t, call), t));
      }
    case Draining =>
      if s.word == PAUSED {
        QuietMove(s, t, Drained);
      }
    case _ =>
      QuietMove(s, t, At(Next(s, t, call), t));
  }

  /** Any interleaving of calls, from an open and unused word. */
  ghost predicate Run(ss: seq<State>, actors: seq<(Thread, Call)>) {
    && |ss| == |actors| + 1 && ss[0] == State(0, map[])
    && forall k :: 0 <= k < |actors| ==> ss[k + 1] == Next(ss[k], actors[k].0, actors[k].1)
  }

  /** The low bits always count the admitted, unfinished attempts, and no release ever underflows. */
  lemma {:induction false} CountIsExact(ss: seq<State>, actors: seq<(Thread, Call)>, n: nat)
    requires Run(ss, actors) && n < |ss|
    ensures Inv(ss[n])
  {
    if n == 0 {
    } else {
      CountIsExact(ss, actors, n - 1);
      NextKeepsInv(ss[n - 1], actors[n - 1].0, actors[n - 1].1);
      assert ss[(n - 1) + 1] == Next(ss[n - 1], actors[n - 1].0, actors[n - 1].1);
    }
  }

  /** Step k is a resume that clears the paused bit. */
  ghost predicate Resumes(s: State, t: Thread) {
    At(s, t).ResumeLoaded? && IsPaused(At(s, t).w) && s.word == At(s, t).w
  }

  /** When a drain loop exits no attempt is active, and none is admitted until some thread resumes. */
  lemma {:induction false} DrainIsABarrier(ss: seq<State>, actors: seq<(Thread, Call)>, d: nat, n: nat)
    requires Run(ss, actors) && d < n < |ss|
    requires At(ss[d], actors[d].0) == Draining && At(ss[d + 1], actors[d].0) == Drained
    requires forall k :: d < k < n ==> !Resumes(ss[k], actors[k].0)
    ensures ss[n].word == PAUSED && Active(ss[n]) == {}
  {
    CountIsExact(ss, actors, n);
    assert ss[(n - 1) + 1] == Next(ss[n - 1], actors[n - 1].0, actors[n - 1].1);
    if n == d + 1 {
    } else {
      DrainIsABarrier(ss, actors, d, n - 1);
      var t := actors[n - 1].0;
      assert t !in Active(ss[n - 1]);
      assert !Resumes(ss[n - 1], t);
    }
  }
}

/** The reports themselves: (epoch, seq) numbering, retry of a failed delivery, epoch advance. */
module MemReport {

  const MAX_U64: nat := 0xffff_ffff_ffff_ffff

  datatype Option<T> = None | Some(value: T)

  datatype Report = Report(epoch: nat, seq_: nat, data: nat)

  /** One call of notify and whether it was acknowledged. */
  datatype Sent = Sent(report: Report, acked: bool)

  predicate Before(e: nat, n: nat, f: nat, m: nat) {
    e < f || (e == f && n < m)
  }

  /** Attempted reports never go back, a repeated number repeats the report, and an acknowledged one is not repeated. */
  ghost predicate Ordered(log: seq<Sent>) {
    forall i, j :: 0 <= i < j < |log| ==>
      var a, b := log[i].report, log[j].report;
      || Before(a.epoch, a.seq_, b.epoch, b.seq_)
      || (a == b && !log[i].acked)
  }

  /** The predecessor in the same epoch was acknowledged earlier. */
  ghost predicate AckedBefore(log: seq<Sent>, n: nat, epoch: nat, number: nat)
    requires n <= |log|
  {
    exists j :: 0 <= j < n && log[j].acked && log[j].report.epoch == epoch && log[j].report.seq_ == number
  }

  ghost predicate Gapless(log: seq<Sent>) {
    forall i :: 0 <= i < |log| && log[i].report.seq_ > 1 ==>
      AckedBefore(log, i, log[i].report.epoch, log[i].report.seq_ - 1)
  }

  /** Everything sent so far lies before the number in use, or is the retained report, not yet acknowledged. */
  ghost predicate UpTo(log: seq<Sent>, r: Report) {
    forall i :: 0 <= i < |log| ==>
      || Before(log[i].report.epoch, log[i].report.seq_, r.epoch, r.seq_)
      || (log[i].report == r && !log[i].acked)
  }

  ghost predicate NotPast(log: seq<Sent>, epoch: nat, number: nat) {
    forall i :: 0 <= i < |log| ==> !Before(epoch, number, log[i].report.epoch, log[i].report.seq_)
  }

  /** The stream's fields and the log of what it sent. */
  datatype State = State(epoch: nat, number: nat, pending: Option<Report>, failures: nat, log: seq<Sent>)

  const Begin := State(1, 0, None, 0, [])

  ghost predicate StreamOk(s: State) {
    && 1 <= s.epoch <= MAX_U64 && s.number <= MAX_U64
    && Ordered(s.log) && Gapless(s.log)
    && match s.pending
       case None => NotPast(s.log, s.epoch, s.number) && (s.number > 0 ==> AckedBefore(s.log, |s.log|, s.epoch, s.number))
       case Some(r) =>
         && r.epoch == s.epoch && r.seq_ == s.number && s.number >= 1 && UpTo(s.log, r)
         && (s.number > 1 ==> AckedBefore(s.log, |s.log|, s.epoch, s.number - 1))
  }

  /** One attempt: the retained report is sent again, a new one only when there is none; it is retained until acknowledged. */
  function Tried(s: State, sample: Option<nat>, delivered: bool): State {
    if s.pending.None? && (sample.None? || s.number == MAX_U64) then s.(failures := s.failures + 1)
    else
      var r := if s.pending.Some? then s.pending.value else Report(s.epoch, s.number + 1, sample.value);
      State(s.epoch, r.seq_, if delivered then None else Some(r), if delivered then 0 else s.failures + 1,
            s.log + [Sent(r, delivered)])
  }

  function Advanced(s: State): State {
    if s.epoch == MAX_U64 then s else State(s.epoch + 1, 0, None, 0, s.log)
  }

  class Stream {
    var epoch: nat
    var number: nat              // seq
    var pending: Option<Report>
    var failures: nat
    ghost var log: seq<Sent>

    ghost function View(): State
      reads this
    {
      State(epoch, number, pending, failures, log)
    }

    constructor ()
      ensures View() == Begin
    {
      epoch, number, pending, failures, log := 1, 0, None, 0, [];
    }

    /** attempt, from taking the stream mutex; sample is what reading meminfo yields, delivered what notify does. */
    method Attempt(sample: Option<nat>, delivered: bool)
      requires StreamOk(View())
      modifies this
      ensures StreamOk(View()) && View() == Tried(old(View()), sample, delivered)
    {
      TryKeepsOrder(View(), sample, delivered);
      SampleAndNotify(sample, delivered);
    }

    method SampleAndNotify(sample: Option<nat>, delivered: bool)
      requires number <= MAX_U64 && (pending.Some? ==> pending.value.seq_ == number)
      modifies this
      ensures View() == Tried(old(View()), sample, delivered)
    {
      if pending.None? {
        if sample.None? {
          failures := failures + 1;
          return;
        }
        if number == MAX_U64 {
          failures := failures + 1;
          return;
        }
        number := number + 1;
        pending := Some(Report(epoch, number, sample.value));
      }
      log := log + [Sent(pending.value, delivered)];
      if !delivered {
        failures := failures + 1;
        return;
      }
      pending := None;
      if failures > 0 {
        failures := 0;
      }
    }

    /** advanceEpochAndPause, from taking the stream mutex after the drain. */
    method AdvanceEpoch() returns (ok: bool)
      requires StreamOk(View())
      modifies this
      ensures StreamOk(View()) && View() == Advanced(old(View()))
      ensures ok <==> old(epoch) < MAX_U64
    {
      if epoch == MAX_U64 {
        return false;
      }
      epoch := epoch + 1;
      number := 0;
      pending := None;
      failures := 0;
      return true;
    }
  }

  datatype StreamEvent = Try(sample: Option<nat>, delivered: bool) | Advance

  function After(events: seq<StreamEvent>): State {
    if events == [] then Begin
    else
      var s := After(events[..|events| - 1]);
      match events[|events| - 1]
      case Try(sample, delivered) => Tried(s, sample, delivered)
      case Advance => Advanced(s)
  }

  /** Any run of attempts and epoch advances sends its reports in order, without gaps in an epoch. */
  lemma {:induction false} RunKeepsOrder(events: seq<StreamEvent>)
    ensures StreamOk(After(events))
  {
    if events == [] {
    } else {
      var s := After(events[..|events| - 1]);
      RunKeepsOrder(events[..|events| - 1]);
      match events[|events| - 1]
      case Try(sample, delivered) => TryKeepsOrder(s, sample, delivered);
      case Advance =>
    }
  }

  lemma TryKeepsOrder(s: State, sample: Option<nat>, delivered: bool)
    requires StreamOk(s)
    ensures StreamOk(Tried(s, sample, delivered))
  {
    if s.pending.Some? {
      SendKeepsOrder(s, delivered);
    } else if sample.Some? && s.number < MAX_U64 {
      SendKeepsOrder(s.(number := s.number + 1, pending := Some(Report(s.epoch, s.number + 1, sample.value))), delivered);
    }
  }

  lemma AckedStays(log: seq<Sent>, last: Sent, k: nat, epoch: nat, number: nat)
    requires k <= |log| && AckedBefore(log, k, epoch, number)
    ensures AckedBefore(log + [last], k, epoch, number) && AckedBefore(log + [last], |log| + 1, epoch, number)
  {
    var j :| 0 <= j < k && log[j].acked && log[j].report.epoch == epoch && log[j].report.seq_ == number;
    assert (log + [last])[j] == log[j];
  }

  lemma SendStaysGapless(s: State, acked: bool)
    requires StreamOk(s) && s.pending.Some?
    ensures Gapless(s.log + [Sent(s.pending.value, acked)])
  {
    var last := Sent(s.pending.value, acked);
    var longer := s.log + [last];
    forall i | 0 <= i < |longer| && longer[i].report.seq_ > 1
      ensures AckedBefore(longer, i, longer[i].report.epoch, longer[i].report.seq_ - 1)
    {
      AckedStays(s.log, last, i, longer[i].report.epoch, longer[i].report.seq_ - 1);
    }
  }

  lemma SendKeepsOrder(s: State, acked: bool)
    requires StreamOk(s) && s.pending.Some?
    ensures StreamOk(Tried(s, None, acked))
  {
    var last := Sent(s.pending.value, acked);
    SendStaysGapless(s, acked);
    if s.number > 1 {
      AckedStays(s.log, last, |s.log|, s.epoch, s.number - 1);
    }
    assert (s.log + [last])[|s.log|] == last;
  }
}
