/** Version cleanup of a checkpoint directory: the whole keep set is validated before the first store is changed. */
module Cleanup {

  type Id = string
  type Version = string

  /** One version store: the identity in its metadata, its visible versions, and whether it was retired. */
  datatype Store = Store(identity: Id, versions: set<Version>, retired: bool)

  /** How opening or listing a store, and changing it, can go wrong: a failed call may have done part of its work. */
  datatype Fault = Sound | Unreadable | Cancelled | DeleteStops(withdrawn: set<Version>) | RetireStops(marked: bool)

  datatype Outcome = Done | Refused | Interrupted

  /** What to do with one store that is not active. */
  datatype Candidate = Candidate(id: Id, remove: set<Version>)

  datatype Request = Request(keep: map<Id, set<Version>>, active: set<Id>)

  function Kept(q: Request, id: Id): set<Version> {
    if id in q.keep then q.keep[id] else {}
  }

  // ----- What is promised -----

  /** The store can serve the request: readable, named as its file, live if it is needed, with every kept version. */
  predicate Serves(s: Store, f: Fault, q: Request, id: Id) {
    && !f.Unreadable?
    && s.identity == id
    && (s.retired ==> Kept(q, id) == {} && id !in q.active)
    && Kept(q, id) <= s.versions
  }

  /** Every store serves the request, and every store the request needs is there. */
  ghost predicate Acceptable(stores: map<Id, Store>, faults: map<Id, Fault>, q: Request) {
    && (forall id :: id in stores ==> Serves(stores[id], FaultOf(faults, id), q, id))
    && q.keep.Keys <= stores.Keys
    && q.active <= stores.Keys
  }

  function FaultOf(faults: map<Id, Fault>, id: Id): Fault {
    if id in faults then faults[id] else Sound
  }

  /** The store as it was, or on the way to its cleaned state: no kept version lost, none gained, live if anything is kept. */
  ghost predicate Underway(was: map<Id, Store>, now: map<Id, Store>, q: Request, id: Id)
    requires id in was
  {
    && (id in now ==>
          && now[id].identity == was[id].identity
          && Kept(q, id) <= now[id].versions <= was[id].versions
          && (Kept(q, id) != {} ==> now[id].retired == was[id].retired))
    && (Kept(q, id) != {} ==> id in now)
  }

  /** The store holds exactly what is kept, or is gone if nothing is. */
  ghost predicate Cleaned(was: map<Id, Store>, now: map<Id, Store>, q: Request, id: Id)
    requires id in was
  {
    if Kept(q, id) == {} then id !in now
    else id in now && now[id] == was[id].(versions := Kept(q, id))
  }

  ghost predicate Untouched(was: map<Id, Store>, now: map<Id, Store>, id: Id) {
    id in was && id in now && now[id] == was[id]
  }

  class Directory {
    var present: bool
    var stores: map<Id, Store>

    /** present says whether the directory exists at all. */
    constructor (present: bool, stores: map<Id, Store>)
      requires !present ==> stores == map[]
      ensures this.present == present && this.stores == stores
    {
      this.present, this.stores := present, stores;
    }

    /** The directory listing, in some order. */
    method List() returns (entries: seq<Id>)
      ensures forall id :: id in entries <==> id in stores
      ensures forall i, j :: 0 <= i < j < |entries| ==> entries[i] != entries[j]
    {
      entries := [];
      var left := stores.Keys;
      while left != {}
        invariant left <= stores.Keys
        invariant forall id :: id in entries <==> id in stores && id !in left
        invariant forall i, j :: 0 <= i < j < |entries| ==> entries[i] != entries[j]
        decreases left
      {
        var id :| id in left;
        entries, left := entries + [id], left - {id};
      }
    }

    /** The first loop's body: whether the store serves, and which of its versions are not kept. */
    method Inspect(id: Id, fault: Fault, q: Request) returns (ok: bool, remove: set<Version>)
      requires id in stores
      ensures ok <==> Serves(stores[id], fault, q, id)
      ensures ok && !stores[id].retired ==> remove == stores[id].versions - Kept(q, id)
    {
      var s := stores[id];
      remove := {};
      if fault.Unreadable? || (s.retired && !(Kept(q, id) == {} && id !in q.active)) || s.identity != id {
        return false, {};
      }
      var ids := if s.retired then {} else s.versions;
      remove := ids - Kept(q, id);
      ok := Kept(q, id) <= ids;
    }

    /** Builds the plans for the stores that are not active; nothing is changed. */
    method Plan(entries: seq<Id>, faults: map<Id, Fault>, q: Request) returns (ok: bool, plans: seq<Candidate>)
      requires forall id :: id in entries <==> id in stores
      requires forall i, j :: 0 <= i < j < |entries| ==> entries[i] != entries[j]
      ensures ok <==> Acceptable(stores, faults, q)
      ensures ok ==> Planned(plans, stores, q)
    {
      plans := [];
      var found := {};
      for n := 0 to |entries|
        invariant forall id :: id in found <==> id in entries[..n]
        invariant forall id :: id in found ==> id in stores && Serves(stores[id], FaultOf(faults, id), q, id)
        invariant Ids(plans) == found - q.active
        invariant Distinct(plans)
        invariant forall i :: 0 <= i < |plans| ==> Fitting(plans[i], stores, q)
      {
        var id := entries[n];
        var serves, remove := Inspect(id, FaultOf(faults, id), q);
        if !serves {
          return false, [];
        }
        assert id !in entries[..n];
        found := found + {id};
        if id !in q.active {
          IdsNext(plans, Candidate(id, remove));
          plans := plans + [Candidate(id, remove)];
        }
      }
      assert entries[..|entries|] == entries;
      assert found == stores.Keys;
      ok := q.keep.Keys <= found && q.active <= found;
    }

    /** The second loop's body. */
    method Apply(p: Candidate, fault: Fault, q: Request) returns (ok: bool)
      requires p.id in stores && Fitting(p, stores, q)
      modifies this`stores
      ensures forall id :: id != p.id ==> (id in stores <==> id in old(stores)) && (id in stores ==> stores[id] == old(stores)[id])
      ensures Underway(old(stores), stores, q, p.id)
      ensures ok ==> Cleaned(old(stores), stores, q, p.id)
      ensures fault.Sound? ==> ok
    {
      var s := stores[p.id];
      ok := true;
      assert Kept(q, p.id) != {} ==> s.versions - p.remove == Kept(q, p.id);
      if fault.Cancelled? || fault.Unreadable? {
        ok := false;
      } else if Kept(q, p.id) == {} {
        if fault.RetireStops? {
          stores := stores[p.id := s.(retired := s.retired || fault.marked)];
          ok := false;
        } else {
          stores := stores - {p.id};
        }
      } else if p.remove != {} {
        if fault.DeleteStops? {
          stores := stores[p.id := s.(versions := s.versions - (p.remove * fault.withdrawn))];
          ok := false;
        } else {
          stores := stores[p.id := s.(versions := s.versions - p.remove)];
        }
      }
    }

    /** The second loop: a failure leaves the stores before it cleaned, its own underway and the later ones untouched. */
    method Sweep(plans: seq<Candidate>, faults: map<Id, Fault>, q: Request) returns (ok: bool)
      requires Planned(plans, stores, q)
      modifies this`stores
      ensures stores.Keys <= old(stores).Keys
      ensures forall id :: id in old(stores) && id in q.active ==> Untouched(old(stores), stores, id)
      ensures forall id :: id in old(stores) ==> Underway(old(stores), stores, q, id) || id in q.active
      ensures ok ==> forall id :: id in old(stores) && id !in q.active ==> Cleaned(old(stores), stores, q, id)
      ensures (forall id :: FaultOf(faults, id).Sound?) ==> ok
    {
      ghost var was := stores;
      for n := 0 to |plans|
        invariant stores.Keys <= was.Keys
        invariant forall id :: id in was && id !in Ids(plans[..n]) ==> Untouched(was, stores, id)
        invariant forall id :: id in Ids(plans[..n]) ==> id in was && Cleaned(was, stores, q, id)
      {
        var p := plans[n];
        IdsPrefix(plans, n);
        assert Fitting(p, was, q);
        ok := Apply(p, FaultOf(faults, p.id), q);
        if !ok {
          PartlySwept(plans, n, was, stores, q);
          return false;
        }
      }
      assert plans[..|plans|] == plans;
      ok := true;
      forall id | id in was && id !in q.active ensures Underway(was, stores, q, id) {
        CleanedIsUnderway(plans, was, stores, q, id);
      }
    }

    method CleanupVersions(q: Request, planFaults: map<Id, Fault>, sweepFaults: map<Id, Fault>) returns (r: Outcome)
      modifies this`stores
      ensures !present ==> r == Done && stores == old(stores)
      ensures present ==> (r == Refused <==> !Acceptable(old(stores), planFaults, q))
      ensures r == Refused ==> stores == old(stores)
      ensures r != Refused ==> stores.Keys <= old(stores).Keys
      ensures forall id :: id in old(stores) && id in q.active ==> Untouched(old(stores), stores, id)
      ensures forall id :: id in old(stores) && id in q.keep ==> NothingLost(old(stores), stores, q, id)
      ensures r == Done && present ==> forall id :: id in old(stores) && id !in q.active ==> Cleaned(old(stores), stores, q, id)
      ensures (forall id :: FaultOf(sweepFaults, id).Sound?) ==> r != Interrupted
      ensures r != Refused && present ==>
                (Acceptable(stores, map[], q) <==> forall id :: id in q.keep && q.keep[id] == {} ==> id in stores)
    {
      if !present {
        return Done;
      }
      var entries := List();
      var ok, plans := Plan(entries, planFaults, q);
      if !ok {
        return Refused;
      }
      ghost var before := stores;
      var swept := Sweep(plans, sweepFaults, q);
      RetryIsAccepted(before, planFaults, stores, q);
      r := if swept then Done else Interrupted;
    }
  }

  function Ids(plans: seq<Candidate>): set<Id> { set k | 0 <= k < |plans| :: plans[k].id }

  predicate Distinct(plans: seq<Candidate>) { forall j, k :: 0 <= j < k < |plans| ==> plans[j].id != plans[k].id }

  lemma IdsNext(plans: seq<Candidate>, p: Candidate)
    ensures Ids(plans + [p]) == Ids(plans) + {p.id}
  {
    var more := plans + [p];
    assert more[|plans|] == p;
    forall id | id in Ids(plans) ensures id in Ids(more) {
      var k :| 0 <= k < |plans| && plans[k].id == id;
      assert more[k].id == id;
    }
  }

  lemma IdsPrefix(plans: seq<Candidate>, n: nat)
    requires n < |plans| && Distinct(plans)
    ensures Ids(plans[..n + 1]) == Ids(plans[..n]) + {plans[n].id}
    ensures plans[n].id !in Ids(plans[..n])
  {
    assert plans[..n + 1] == plans[..n] + [plans[n]];
    IdsNext(plans[..n], plans[n]);
  }

  /** A plan removes exactly what is not kept of a live store. */
  ghost predicate Fitting(p: Candidate, stores: map<Id, Store>, q: Request) {
    && p.id in stores
    && Kept(q, p.id) <= stores[p.id].versions
    && (Kept(q, p.id) != {} ==> !stores[p.id].retired && p.remove == stores[p.id].versions - Kept(q, p.id))
  }

  /** One fitting plan for every store that is not active. */
  ghost predicate Planned(plans: seq<Candidate>, stores: map<Id, Store>, q: Request) {
    && Ids(plans) == stores.Keys - q.active
    && Distinct(plans)
    && forall i :: 0 <= i < |plans| ==> Fitting(plans[i], stores, q)
  }

  lemma CleanedIsUnderway(plans: seq<Candidate>, was: map<Id, Store>, now: map<Id, Store>, q: Request, id: Id)
    requires Planned(plans, was, q) && id in was && id !in q.active
    requires Untouched(was, now, id) || Cleaned(was, now, q, id)
    ensures Underway(was, now, q, id)
  {
    assert id in Ids(plans);
    var k :| 0 <= k < |plans| && plans[k].id == id;
    assert Fitting(plans[k], was, q);
  }

  /** Stores before the failing plan are cleaned, its own is underway, later ones are untouched: all are underway. */
  lemma PartlySwept(plans: seq<Candidate>, n: nat, was: map<Id, Store>, now: map<Id, Store>, q: Request)
    requires Planned(plans, was, q) && n < |plans|
    requires Underway(was, now, q, plans[n].id)
    requires forall id :: id in was && id != plans[n].id ==>
      Untouched(was, now, id) || (id in Ids(plans[..n]) && Cleaned(was, now, q, id))
    ensures forall id :: id in was && id !in q.active ==> Underway(was, now, q, id)
  {
    forall id | id in was && id !in q.active ensures Underway(was, now, q, id) {
      if id != plans[n].id {
        CleanedIsUnderway(plans, was, now, q, id);
      }
    }
  }

  /** A store with kept versions still has those it had, is live if it was, and has no others than before. */
  ghost predicate NothingLost(was: map<Id, Store>, now: map<Id, Store>, q: Request, id: Id)
    requires id in was
  {
    Kept(q, id) != {} ==>
      && id in now
      && now[id].retired == was[id].retired
      && was[id].versions * Kept(q, id) <= now[id].versions <= was[id].versions
  }

  /** After an interrupted sweep the same request is accepted again, unless it names a store it keeps nothing of and that is gone. */
  lemma RetryIsAccepted(was: map<Id, Store>, faults: map<Id, Fault>, now: map<Id, Store>, q: Request)
    requires Acceptable(was, faults, q) && now.Keys <= was.Keys
    requires forall id :: id in was && id in q.active ==> Untouched(was, now, id)
    requires forall id :: id in was && id !in q.active ==> Underway(was, now, q, id)
    ensures Acceptable(now, map[], q) <==> forall id :: id in q.keep && q.keep[id] == {} ==> id in now
  {
    forall id | id in now ensures Serves(now[id], Sound, q, id) {
      assert Serves(was[id], FaultOf(faults, id), q, id);
    }
    if forall id :: id in q.keep && q.keep[id] == {} ==> id in now {
      forall id | id in q.keep ensures id in now {
        if q.keep[id] != {} {
          assert id in was;
        }
      }
    }
  }

  /** Such a refusal: the request keeps nothing of a store it names, the store is retired, and the same request is refused. */
  method RetryCanBeRefused() returns (first: Outcome, second: Outcome)
    ensures first == Done && second == Refused
  {
    var directory := new Directory(true, map["a" := Store("a", {}, false), "b" := Store("b", {"1", "2"}, false)]);
    var q := Request(map["a" := {}, "b" := {"1"}], {});
    assert Kept(q, "a") == {} && Kept(q, "b") == {"1"};
    first := directory.CleanupVersions(q, map[], map[]);
    assert Cleaned(map["a" := Store("a", {}, false), "b" := Store("b", {"1", "2"}, false)], directory.stores, q, "a");
    assert "a" in q.keep;
    second := directory.CleanupVersions(q, map[], map[]);
  }
}
