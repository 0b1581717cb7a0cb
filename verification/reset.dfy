/** Reset of a multi-disk sandbox: an operation record, one checkpoint per disk, a crash allowed anywhere. */
module Reset {

  type Id = string
  type Ref = string

  /** One versioned disk store; an empty current means no version is current. */
  datatype Disk = Disk(name: string, diff: string, versions: seq<Id>, current: Id)

  /** The durable record that owns an operation's versions. */
  datatype Operation = Operation(run: string, id: Id, description: nat, before: seq<Id>, sandboxRef: Ref)

  /** The checkpoint document the operation publishes: one disk identity per disk, the first being the root. */
  datatype Document = Document(id: Id, disks: seq<(string, string)>)

  /** What survives a crash. */
  datatype Durable = Durable(disks: seq<Disk>, operations: map<Id, Operation>, documents: map<Ref, Document>)

  /** The retained description of the run being reset. */
  datatype Description = Description(run: string, hash: nat)

  datatype Outcome = Done(ref: Ref) | Interrupted | Refused
  datatype Claim = Holds(op: Operation) | Ended(outcome: Outcome)
  datatype Progress = Advanced | Halted(outcome: Outcome)

  ghost predicate NoDuplicates(s: seq<Id>) {
    forall i, j :: 0 <= i < j < |s| ==> s[i] != s[j]
  }

  ghost predicate DiskOk(d: Disk) {
    NoDuplicates(d.versions) && "" !in d.versions && (d.current == "" || d.current in d.versions)
  }

  function Checkpointed(d: Disk, id: Id): Disk {
    d.(versions := d.versions + [id], current := id)
  }

  function DocumentOf(disks: seq<Disk>, id: Id): Document {
    Document(id, seq(|disks|, i requires 0 <= i < |disks| => (disks[i].name, disks[i].diff)))
  }

  function Currents(disks: seq<Disk>): (r: seq<Id>)
    ensures |r| == |disks| && forall i :: 0 <= i < |r| ==> r[i] == disks[i].current
  {
    seq(|disks|, i requires 0 <= i < |disks| => disks[i].current)
  }

  ghost predicate Injective(name: Document -> Ref) {
    (forall a, b :: name(a) == name(b) ==> a == b) && forall a :: name(a) != ""
  }

  ghost predicate DurableOk(s: Durable, name: Document -> Ref) {
    && (forall i :: 0 <= i < |s.disks| ==> DiskOk(s.disks[i]))
    && (forall ref :: ref in s.documents ==> name(s.documents[ref]) == ref)
  }

  /** The record belongs to this run, operation and description. */
  predicate Owned(op: Operation, d: Description, id: Id, disks: nat) {
    op.run == d.run && op.id == id && op.description == d.hash && |op.before| == disks
  }

  /** A disk the operation has not reached yet, or has. */
  ghost predicate Settled(d: Disk, before: Id, id: Id) {
    (id !in d.versions && d.current == before) || (id in d.versions && d.current == id)
  }

  /** No version of the operation exists, or its record says exactly which disks it may still advance. */
  ghost predicate Recoverable(s: Durable, d: Description, id: Id, name: Document -> Ref) {
    if id in s.operations then
      var op := s.operations[id];
      && Owned(op, d, id, |s.disks|)
      && (forall i :: 0 <= i < |s.disks| ==> Settled(s.disks[i], op.before[i], id))
      && (op.sandboxRef == "" || op.sandboxRef == name(DocumentOf(s.disks, id)))
    else
      forall i :: 0 <= i < |s.disks| ==> id !in s.disks[i].versions
  }

  ghost predicate Finished(s: Durable, id: Id) {
    forall i :: 0 <= i < |s.disks| ==> id in s.disks[i].versions && s.disks[i].current == id
  }

  /** What one attempt may do to durable state, whatever interrupts it. */
  ghost predicate Attempt(s: Durable, t: Durable, d: Description, id: Id, outcome: Outcome, name: Document -> Ref) {
    && |t.disks| == |s.disks|
    // A disk gains the operation's version only from the state recorded at admission, and only under a record.
    && (forall i :: 0 <= i < |s.disks| ==>
          || t.disks[i] == s.disks[i]
          || (t.disks[i] == Checkpointed(s.disks[i], id) && id !in s.disks[i].versions && id in t.operations &&
              i < |t.operations[id].before| && s.disks[i].current == t.operations[id].before[i]))
    // Other operations' records stay; this one's is created from the current disks or kept.
    && t.operations.Keys <= s.operations.Keys + {id}
    && (forall other :: other in s.operations && other != id ==> other in t.operations && t.operations[other] == s.operations[other])
    && (id in s.operations ==> id in t.operations && t.operations[id].(sandboxRef := "") == s.operations[id].(sandboxRef := ""))
    && (id !in s.operations && id in t.operations ==>
          && t.operations[id].(sandboxRef := "") == Operation(d.run, id, d.hash, Currents(s.disks), "")
          && forall i :: 0 <= i < |s.disks| ==> id !in s.disks[i].versions)
    && (id in t.operations ==>
          || t.operations[id].sandboxRef == (if id in s.operations then s.operations[id].sandboxRef else "")
          || t.operations[id].sandboxRef == name(DocumentOf(s.disks, id)))
    && (forall ref :: ref in s.documents ==> ref in t.documents && t.documents[ref] == s.documents[ref])
    && (outcome.Done? ==>
          && Finished(t, id) && outcome.ref == name(DocumentOf(s.disks, id))
          && outcome.ref in t.documents && t.documents[outcome.ref] == DocumentOf(s.disks, id)
          && id in t.operations && t.operations[id].sandboxRef == outcome.ref)
    // A version without a record is never adopted, and a foreign record never used.
    && (id !in s.operations && (exists i :: 0 <= i < |s.disks| && id in s.disks[i].versions) ==> !outcome.Done? && t == s)
    && (id in s.operations && !Owned(s.operations[id], d, id, |s.disks|) ==> !outcome.Done? && t == s)
  }

  /** The record an attempt works under: the one found, or a new one of the current disks, none of which has the version. */
  ghost predicate Claimed(s: Durable, d: Description, id: Id, op: Operation) {
    && Owned(op, d, id, |s.disks|)
    && if id in s.operations then op == s.operations[id]
       else
         && op == Operation(d.run, id, d.hash, Currents(s.disks), "")
         && forall i :: 0 <= i < |s.disks| ==> id !in s.disks[i].versions
  }

  /** Advancing disks under a claimed record, with or without publishing the document, is an attempt. */
  lemma ClaimedIsAttempt(s: Durable, t: Durable, d: Description, id: Id, op: Operation, outcome: Outcome, name: Document -> Ref)
    requires Claimed(s, d, id, op) && AdvancedFrom(s.disks, t.disks, op.before, id)
    requires t.operations == s.operations[id := op] || t.operations == s.operations[id := op.(sandboxRef := name(DocumentOf(s.disks, id)))]
    requires forall ref :: ref in s.documents ==> ref in t.documents && t.documents[ref] == s.documents[ref]
    requires outcome.Done? ==>
      && Finished(t, id) && outcome.ref == name(DocumentOf(s.disks, id))
      && outcome.ref in t.documents && t.documents[outcome.ref] == DocumentOf(s.disks, id)
      && t.operations[id].sandboxRef == outcome.ref
    ensures Attempt(s, t, d, id, outcome, name)
  {
  }

  /** Each disk is as it was, or gained the version from the state recorded for it. */
  ghost predicate AdvancedFrom(s: seq<Disk>, t: seq<Disk>, before: seq<Id>, id: Id) {
    && |s| == |t| == |before|
    && forall i :: 0 <= i < |s| ==>
         || t[i] == s[i]
         || (t[i] == Checkpointed(s[i], id) && id !in s[i].versions && s[i].current == before[i])
  }

  lemma SameDocument(s: seq<Disk>, t: seq<Disk>, before: seq<Id>, id: Id)
    requires AdvancedFrom(s, t, before, id)
    ensures DocumentOf(s, id) == DocumentOf(t, id)
  {
    assert DocumentOf(s, id).disks == DocumentOf(t, id).disks;
  }

  /** The locked disk directory. */
  class Directory {
    const description: Description
    const name: Document -> Ref  // the content address of a document
    var disks: seq<Disk>
    var operations: map<Id, Operation>
    var documents: map<Ref, Document>

    ghost function State(): Durable
      reads this
    {
      Durable(disks, operations, documents)
    }

    ghost predicate Valid()
      reads this
    {
      Injective(name) && DurableOk(State(), name)
    }

    constructor (description: Description, name: Document -> Ref, s: Durable)
      ensures this.description == description && this.name == name && State() == s
    {
      this.description, this.name := description, name;
      disks, operations, documents := s.disks, s.operations, s.documents;
    }

    /**
     resetCurrentDisks after its source description was admitted. stop(k) says whether the k-th boundary ends the
     attempt, by a crash or by an I/O error; every boundary lies between two durable effects.
     */
    method ResetCurrentDisks(run: string, id: Id, stop: nat -> bool) returns (outcome: Outcome)
      requires Valid() && id != ""
      modifies this
      ensures Valid() && Attempt(old(State()), State(), description, id, outcome, name)
      ensures run != description.run ==> outcome == Refused && State() == old(State())
      ensures run == description.run && Recoverable(old(State()), description, id, name) ==>
                Recoverable(State(), description, id, name) && outcome != Refused
      ensures run == description.run && Recoverable(old(State()), description, id, name) && (forall k :: !stop(k)) ==>
                outcome.Done?
    {
      if run != description.run {
        return Refused;
      }
      ghost var before := State();
      var claim := ClaimOperation(run, id, stop);
      if claim.Ended? {
        return claim.outcome;
      }
      outcome := CarryOut(claim.op, id, stop);
      ClaimedIsAttempt(before, State(), description, id, claim.op, outcome, name);
      if Recoverable(before, description, id, name) {
        AttemptKeepsRecoverable(before, State(), description, id, outcome, name);
      }
    }

    /** Works under a claimed record; refuses only a disk or a reference that does not fit the record. */
    method CarryOut(op: Operation, id: Id, stop: nat -> bool) returns (outcome: Outcome)
      requires Valid() && id != "" && |op.before| == |disks| && id in operations && operations[id] == op
      modifies this
      ensures Valid() && AdvancedFrom(old(disks), disks, op.before, id)
      ensures operations == old(operations) || operations == old(operations)[id := op.(sandboxRef := name(DocumentOf(old(disks), id)))]
      ensures forall ref :: ref in old(documents) ==> ref in documents && documents[ref] == old(documents)[ref]
      ensures outcome.Done? ==>
                && Finished(State(), id) && outcome.ref == name(DocumentOf(old(disks), id)) && operations[id].sandboxRef == outcome.ref
                && outcome.ref in documents && documents[outcome.ref] == DocumentOf(old(disks), id)
      ensures outcome == Refused ==>
                || (exists i :: 0 <= i < |old(disks)| && !Settled(old(disks)[i], op.before[i], id))
                || (op.sandboxRef != "" && op.sandboxRef != name(DocumentOf(old(disks), id)))
      ensures outcome == Interrupted ==> exists k :: stop(k)
    {
      if stop(1) {
        return Interrupted;
      }
      var progress := AdvanceDisks(op, id, stop);
      if progress.Halted? {
        return progress.outcome;
      }
      SameDocument(old(disks), disks, op.before, id);
      outcome := PublishDocument(op, id, stop);
    }

    /** Takes over the operation's record, or writes one if no disk has its version; nothing else is changed. */
    method ClaimOperation(run: string, id: Id, stop: nat -> bool) returns (c: Claim)
      requires Valid() && run == description.run
      modifies this`operations
      ensures Valid()
      ensures c.Holds? ==> operations == old(operations)[id := c.op] && Claimed(old(State()), description, id, c.op)
      ensures c.Ended? ==> operations == old(operations) && !c.outcome.Done?
      ensures c == Ended(Refused) ==> !Recoverable(State(), description, id, name)
      ensures c == Ended(Interrupted) ==> stop(0)
    {
      var op := Operation(run, id, description.hash, Currents(disks), "");
      if id in operations {
        if !Owned(operations[id], description, id, |disks|) {
          return Ended(Refused);
        }
        return Holds(operations[id]);
      }
      var taken := VersionExists(id);
      if taken {
        return Ended(Refused);
      }
      if stop(0) {
        return Ended(Interrupted);
      }
      operations := operations[id := op];
      c := Holds(op);
    }

    /** Give every disk the operation's version, skipping those that have it. */
    method AdvanceDisks(op: Operation, id: Id, stop: nat -> bool) returns (p: Progress)
      requires Valid() && id != "" && |op.before| == |disks|
      modifies this`disks
      ensures Valid() && AdvancedFrom(old(disks), disks, op.before, id)
      ensures p == Advanced ==> Finished(State(), id)
      ensures p.Halted? ==> p.outcome == Refused || (p.outcome == Interrupted && exists k :: stop(k))
      ensures p == Halted(Refused) ==> exists i :: 0 <= i < |disks| && !Settled(old(disks)[i], op.before[i], id)
      ensures (forall i :: 0 <= i < |disks| ==> Settled(old(disks)[i], op.before[i], id)) ==>
                forall i :: 0 <= i < |disks| ==> Settled(disks[i], op.before[i], id)
    {
      for i := 0 to |disks|
        invariant Valid() && AdvancedFrom(old(disks), disks, op.before, id)
        invariant forall k :: i <= k < |disks| ==> disks[k] == old(disks)[k]
        invariant forall k :: 0 <= k < i ==> id in disks[k].versions && disks[k].current == id
      {
        if id in disks[i].versions {
          if disks[i].current != id {
            assert !Settled(old(disks)[i], op.before[i], id);
            return Halted(Refused);
          }
        } else {
          if disks[i].current != op.before[i] {
            assert !Settled(old(disks)[i], op.before[i], id);
            return Halted(Refused);
          }
          disks := disks[i := Checkpointed(disks[i], id)];
        }
        if stop(2 + i) {
          return Halted(Interrupted);
        }
      }
      return Advanced;
    }

    /** Absorb the checkpoint document, check it by content, and record its reference. */
    method PublishDocument(op: Operation, id: Id, stop: nat -> bool) returns (outcome: Outcome)
      requires Valid() && id in operations && operations[id] == op && Finished(State(), id)
      modifies this`operations, this`documents
      ensures Valid()
      ensures operations == old(operations) || operations == old(operations)[id := op.(sandboxRef := name(DocumentOf(disks, id)))]
      ensures forall ref :: ref in old(documents) ==> ref in documents && documents[ref] == old(documents)[ref]
      ensures outcome.Done? ==>
                && outcome.ref == name(DocumentOf(disks, id)) && operations[id].sandboxRef == outcome.ref
                && outcome.ref in documents && documents[outcome.ref] == DocumentOf(disks, id)
      ensures outcome == Refused ==> op.sandboxRef != "" && op.sandboxRef != name(DocumentOf(disks, id))
      ensures outcome == Interrupted ==> exists k :: stop(k)
    {
      if stop(2 + |disks|) {
        return Interrupted;
      }
      var document := DocumentOf(disks, id);
      var ref := name(document);
      if ref !in documents {
        documents := documents[ref := document];
      }
      if op.sandboxRef != "" && op.sandboxRef != ref {
        return Refused;
      }
      if documents[ref] != document {
        return Refused;
      }
      if stop(3 + |disks|) {
        return Interrupted;
      }
      operations := operations[id := op.(sandboxRef := ref)];
      if stop(4 + |disks|) {
        return Interrupted;
      }
      return Done(ref);
    }

    method VersionExists(id: Id) returns (found: bool)
      ensures found <==> exists i :: 0 <= i < |disks| && id in disks[i].versions
    {
      for i := 0 to |disks|
        invariant forall k :: 0 <= k < i ==> id !in disks[k].versions
      {
        if id in disks[i].versions {
          return true;
        }
      }
      return false;
    }
  }

  /** An attempt, however it ends, leaves a recoverable operation recoverable. */
  lemma AttemptKeepsRecoverable(s: Durable, t: Durable, d: Description, id: Id, outcome: Outcome, name: Document -> Ref)
    requires Attempt(s, t, d, id, outcome, name) && Recoverable(s, d, id, name) && DurableOk(s, name) && id != ""
    ensures Recoverable(t, d, id, name)
  {
    AttemptKeepsDocument(s, t, d, id, outcome, name);
    if id in t.operations {
      forall i | 0 <= i < |t.disks| ensures Settled(t.disks[i], t.operations[id].before[i], id) {
        if t.disks[i] == s.disks[i] && id !in s.operations {
          assert id !in s.disks[i].versions;
        }
      }
    }
  }

  lemma AttemptKeepsDocument(s: Durable, t: Durable, d: Description, id: Id, outcome: Outcome, name: Document -> Ref)
    requires Attempt(s, t, d, id, outcome, name)
    ensures DocumentOf(s.disks, id) == DocumentOf(t.disks, id)
  {
    assert DocumentOf(s.disks, id).disks == DocumentOf(t.disks, id).disks;
  }

  /** Attempt k starts from what the one before left, and leaves well-formed stores. */
  ghost predicate Attempted(
    states: seq<Durable>, outcomes: seq<Outcome>, d: Description, id: Id, name: Document -> Ref, k: int)
    requires 0 <= k < |outcomes| < |states|
  {
    Attempt(states[k], states[k + 1], d, id, outcomes[k], name) && DurableOk(states[k + 1], name)
  }

  /** A history of attempts under one operation ID. */
  ghost predicate History(states: seq<Durable>, outcomes: seq<Outcome>, d: Description, id: Id, name: Document -> Ref) {
    && |states| == |outcomes| + 1
    && DurableOk(states[0], name)
    && (forall k :: 0 <= k < |outcomes| ==> Attempted(states, outcomes, d, id, name, k))
  }

  /** Every disk is as it was at the start or gained the version exactly once since. */
  ghost predicate AtMostOnce(s: Durable, t: Durable, id: Id) {
    && |t.disks| == |s.disks|
    && forall i :: 0 <= i < |s.disks| ==>
         t.disks[i] == s.disks[i] || (id !in s.disks[i].versions && t.disks[i] == Checkpointed(s.disks[i], id))
  }

  ghost predicate ExactlyOnce(s: Durable, id: Id) {
    forall d :: d in s.disks ==> multiset(d.versions)[id] == 1
  }

  lemma FinishedOnce(s: Durable, id: Id, name: Document -> Ref)
    requires DurableOk(s, name) && Finished(s, id)
    ensures ExactlyOnce(s, id)
  {
    forall d | d in s.disks ensures multiset(d.versions)[id] == 1 {
      CountOnce(d.versions, id);
    }
  }

  /** Any number of interrupted attempts leaves every disk either at its recorded state or at the operation's version. */
  lemma {:induction false} HistoryIsSafe(
    states: seq<Durable>, outcomes: seq<Outcome>, d: Description, id: Id, name: Document -> Ref, n: nat)
    requires History(states, outcomes, d, id, name) && id != "" && n < |states|
    requires Recoverable(states[0], d, id, name)
    ensures Recoverable(states[n], d, id, name) && DurableOk(states[n], name)
    ensures AtMostOnce(states[0], states[n], id)
    ensures DocumentOf(states[n].disks, id) == DocumentOf(states[0].disks, id)
  {
    if n == 0 {
    } else {
      HistoryIsSafe(states, outcomes, d, id, name, n - 1);
      var s, t := states[n - 1], states[n];
      assert Attempted(states, outcomes, d, id, name, n - 1);
      AttemptKeepsRecoverable(s, t, d, id, outcomes[n - 1], name);
      AttemptKeepsDocument(s, t, d, id, outcomes[n - 1], name);
    }
  }

  lemma SuccessNamesDocument(
    states: seq<Durable>, outcomes: seq<Outcome>, d: Description, id: Id, name: Document -> Ref, k: nat)
    requires History(states, outcomes, d, id, name) && id != "" && k < |outcomes| && outcomes[k].Done?
    requires Recoverable(states[0], d, id, name)
    ensures outcomes[k] == Done(name(DocumentOf(states[0].disks, id)))
  {
    HistoryIsSafe(states, outcomes, d, id, name, k);
    assert Attempted(states, outcomes, d, id, name, k);
  }

  /** Over any history of crashes and retries all successes agree, and after one nothing changes any more. */
  lemma SuccessesAgree(
    states: seq<Durable>, outcomes: seq<Outcome>, d: Description, id: Id, name: Document -> Ref, i: nat, j: nat)
    requires History(states, outcomes, d, id, name) && id != "" && i < j < |outcomes|
    requires Recoverable(states[0], d, id, name)
    requires outcomes[i].Done?
    ensures outcomes[j].Done? ==> outcomes[j] == outcomes[i]
    ensures states[j + 1].disks == states[i + 1].disks
    ensures Finished(states[j + 1], id)
    ensures ExactlyOnce(states[j + 1], id)
  {
    SuccessNamesDocument(states, outcomes, d, id, name, i);
    if outcomes[j].Done? {
      SuccessNamesDocument(states, outcomes, d, id, name, j);
    }
    NothingAfterSuccess(states, outcomes, d, id, name, i, j + 1);
    HistoryIsSafe(states, outcomes, d, id, name, j + 1);
    FinishedOnce(states[j + 1], id, name);
  }

  lemma FinishedStays(s: Durable, t: Durable, d: Description, id: Id, outcome: Outcome, name: Document -> Ref)
    requires Attempt(s, t, d, id, outcome, name) && Finished(s, id)
    ensures t.disks == s.disks && Finished(t, id)
  {
    assert forall k :: 0 <= k < |s.disks| ==> t.disks[k] == s.disks[k];
  }

  lemma {:induction false} NothingAfterSuccess(
    states: seq<Durable>, outcomes: seq<Outcome>, d: Description, id: Id, name: Document -> Ref, i: nat, n: nat)
    requires History(states, outcomes, d, id, name) && i < |outcomes| && i < n < |states| && outcomes[i].Done?
    ensures states[n].disks == states[i + 1].disks && Finished(states[n], id)
  {
    assert Attempted(states, outcomes, d, id, name, n - 1);
    if n == i + 1 {
    } else {
      NothingAfterSuccess(states, outcomes, d, id, name, i, n - 1);
      FinishedStays(states[n - 1], states[n], d, id, outcomes[n - 1], name);
    }
  }

  lemma {:induction false} CountOnce(s: seq<Id>, id: Id)
    requires NoDuplicates(s) && id in s
    ensures multiset(s)[id] == 1
    decreases |s|
  {
    var n := |s| - 1;
    assert s == s[..n] + [s[n]];
    if s[n] != id {
      assert id in s[..n];
      CountOnce(s[..n], id);
    } else {
      assert id !in s[..n];
    }
  }
}
