/**
 * The console bridge: one pump per output role copies what the app wrote, generation after generation, to
 * whichever multiplexed session is current, while restarts install new generations and sessions come and go.
 * The steps are the mutex sections and the reads and writes between them.
 */
module Console {

  datatype Option<T> = None | Some(value: T)

  newtype byte = x: int | 0 <= x < 0x100

  /** The roles with an app-to-host pump. */
  datatype Role = Pty | Stdout | Stderr

  datatype Spec = Spec(tty: bool, stdin: bool, stdout: bool, stderr: bool)

  /** The role has a readable end in the descriptors made for spec. */
  predicate Wired(spec: Spec, r: Role) {
    match r
    case Pty => spec.tty
    case Stdout => !spec.tty && spec.stdout
    case Stderr => !spec.tty && spec.stderr
  }

  function DrainMask(spec: Spec): (mask: set<Role>)
    ensures forall r :: r in mask <==> Wired(spec, r)
  {
    if spec.tty then {Pty}
    else (if spec.stdout then {Stdout} else {}) + (if spec.stderr then {Stderr} else {})
  }

  /** What one generation of the app wrote to one role, how much of it the pump has read, and whether all writers are gone. */
  datatype Out = Out(enabled: bool, written: seq<byte>, taken: nat, ended: bool)

  /** One generation: roles yet to drain, whether its descriptors were closed, and whether that happened before it drained. */
  datatype Gen = Gen(pending: set<Role>, shut: bool, cut: bool)

  /** The session slot; sessions are numbered in the order they are attached. */
  datatype Holder = Holder(sess: Option<nat>, closed: bool, issued: nat)

  datatype Shared = Shared(gens: seq<Gen>, closed: bool, holder: Holder)

  datatype Phase =
    | Unstarted
    | Reading
    | Forwarding
    | Sending(sess: nat)
    | Failed(sess: nat, closing: bool)
    | Marking
    | Parked(drained: bool)
    | Finishing
    | Ending(sess: nat)
    | Done

  datatype Pump = Pump(phase: Phase, gen: nat, chunk: seq<byte>, eof: bool)

  /** Bytes one session accepted in one write. */
  datatype Accepted = Accepted(sess: nat, bytes: seq<byte>)

  datatype Lane = Lane(pump: Pump, outs: seq<Out>, log: seq<Accepted>)

  // ----- The mutex sections as functions -----

  function Attached(h: Holder): Holder { h.(sess := Some(h.issued), issued := h.issued + 1) }

  function Invalidated(h: Holder, s: nat): Holder { if h.sess == Some(s) then h.(sess := None) else h }

  function ShutDown(h: Holder): Holder { h.(sess := None, closed := true) }

  function Marked(g: Gen, r: Role): Gen { g.(pending := g.pending - {r}) }

  /** Closing a generation's descriptors cuts it when some role has not drained. */
  function Shut(g: Gen): Gen { g.(shut := true, cut := g.cut || (!g.shut && g.pending != {})) }

  function Fresh(mask: set<Role>): Gen { Gen(mask, false, false) }

  class Drain {
    var pending: set<Role>
    var done: bool

    ghost predicate Valid() reads this { done <==> pending == {} }

    constructor (mask: set<Role>)
      ensures Valid() && pending == mask
    {
      pending, done := mask, mask == {};
    }

    /** The done channel is closed by the mark that empties pending, and never a second time. */
    method Mark(r: Role)
      requires Valid()
      modifies this
      ensures Valid() && pending == old(pending) - {r}
      ensures done != old(done) <==> old(pending) == {r}
    {
      if r in pending {
        pending := pending - {r};
        if pending == {} {
          CloseDone();
        }
      }
    }

    /** Closing a closed channel panics. */
    method CloseDone()
      requires !done
      modifies this`done
      ensures done
    {
      done := true;
    }
  }

  class SessionHolder {
    var sess: Option<nat>
    var closed: bool
    ghost var issued: nat

    ghost function View(): Holder reads this { Holder(sess, closed, issued) }

    constructor ()
      ensures View() == Holder(None, false, 0)
    {
      sess, closed, issued := None, false, 0;
    }

    method Set(s: nat)
      requires s == issued
      modifies this
      ensures View() == Attached(old(View()))
    {
      sess := Some(s);
      issued := issued + 1;
    }

    /** A newer session attached meanwhile is left alone. */
    method Invalidate(s: nat)
      modifies this
      ensures View() == Invalidated(old(View()), s)
      ensures old(sess) != Some(s) ==> sess == old(sess)
    {
      if sess == Some(s) {
        sess := None;
      }
    }

    /** The end of wait, once its condition lets it through. */
    method Wait() returns (s: Option<nat>)
      requires sess.Some? || closed
      ensures s.None? <==> closed
      ensures !closed ==> s == sess
    {
      s := if closed then None else sess;
    }

    method Shutdown()
      modifies this
      ensures View() == ShutDown(old(View()))
    {
      sess, closed := None, true;
    }
  }

  class Bridge {
    var gens: seq<Gen>
    var closed: bool

    constructor (spec: Spec)
      ensures gens == [Fresh(DrainMask(spec))] && !closed
    {
      gens, closed := [Fresh(DrainMask(spec))], false;
    }

    method CloseApp()
      modifies this`closed
      ensures closed
    {
      if !closed {
        closed := true;
      }
    }

    /** The end of waitNextFd: the newest generation if it is newer, and failure only if the bridge closed without one. */
    method WaitNextFd(gen: nat) returns (next: Option<nat>)
      requires |gens| - 1 > gen || closed
      ensures next.Some? ==> next.value == |gens| - 1 > gen
      ensures next.None? ==> closed && |gens| - 1 <= gen
    {
      if |gens| - 1 <= gen {
        return None;
      }
      next := Some(|gens| - 1);
    }

    /** Closing a generation cuts it exactly if some role had not drained, which keeps the hand-over in order. */
    method CloseEnds(g: nat)
      requires g < |gens|
      modifies this`gens
      ensures |gens| == |old(gens)| && forall k :: 0 <= k < |gens| && k != g ==> gens[k] == old(gens)[k]
      ensures gens[g].shut && gens[g].pending == old(gens)[g].pending
      ensures gens[g].cut <==> old(gens)[g].cut || (!old(gens)[g].shut && old(gens)[g].pending != {})
      ensures Handed(old(gens)) ==> Handed(gens)
    {
      gens := gens[g := Shut(gens[g])];
    }

    /** The last section of a rewire: it installs unless the bridge closed or another generation came in. */
    method Install(prior: nat, spec: Spec) returns (ok: bool)
      requires |gens| > 0
      modifies this`gens
      ensures ok <==> !closed && |gens| == prior + 2 && gens == old(gens) + [Fresh(DrainMask(spec))]
      ensures !ok ==> gens == old(gens)
    {
      if closed {
        return false;
      }
      if |gens| - 1 != prior {
        return false;
      }
      gens := gens + [Fresh(DrainMask(spec))];
      ok := true;
    }
  }

  // ----- One lane's moves -----

  datatype Move =
    | AppWrites(gen: nat, bytes: seq<byte>)
    | AppExits(gen: nat)
    | Starts
    | Reads(n: nat, fail: bool)
    | Fetches
    | Sends(n: nat, fail: bool)
    | Invalidates
    | Marks
    | GoesOn
    | Closes(ok: bool)

  function Newest(c: Shared): int { |c.gens| - 1 }

  /** The pump takes up generation g: a role without a descriptor there waits for the next one. */
  function TakeUp(l: Lane, g: nat): Pump
    requires g < |l.outs|
  {
    Pump(if l.outs[g].enabled then Reading else Parked(false), g, [], false)
  }

  predicate Fits(l: Lane, c: Shared) { |l.outs| == |c.gens| > 0 && l.pump.gen < |c.gens| }

  /** A read fails only at the end of the output or on a closed descriptor. */
  predicate ReadCan(o: Out, g: Gen, n: nat, fail: bool) {
    && o.taken + n <= |o.written|
    && (fail ==> g.shut || (o.ended && o.taken + n == |o.written|))
  }

  predicate CanMove(l: Lane, c: Shared, m: Move) {
    var p := l.pump;
    && Fits(l, c)
    && match m
       case AppWrites(g, _) => g < |l.outs| && l.outs[g].enabled && !l.outs[g].ended
       case AppExits(g) => g < |l.outs|
       case Starts => p.phase.Unstarted?
       case Reads(n, fail) => p.phase.Reading? && ReadCan(l.outs[p.gen], c.gens[p.gen], n, fail)
       case Fetches => (p.phase.Forwarding? || p.phase.Finishing?) && (c.holder.closed || c.holder.sess.Some?)
       case Sends(n, _) => p.phase.Sending? && n <= |p.chunk|
       case Invalidates => p.phase.Failed?
       case Marks => p.phase.Marking?
       case GoesOn => p.phase.Parked? && (Newest(c) > p.gen || c.closed)
       case Closes(_) => p.phase.Ending?
  }

  /** Where the pump loop stands when the chunk is as given. */
  function AfterChunk(p: Pump, chunk: seq<byte>): Phase {
    if chunk != [] then Forwarding else if p.eof then Marking else Reading
  }

  function Read(l: Lane, n: nat, fail: bool): Lane
    requires l.pump.gen < |l.outs| && l.outs[l.pump.gen].taken + n <= |l.outs[l.pump.gen].written|
  {
    var p := l.pump;
    var o := l.outs[p.gen];
    var q := Pump(p.phase, p.gen, o.written[o.taken..o.taken + n], fail);
    l.(pump := q.(phase := AfterChunk(q, q.chunk)), outs := l.outs[p.gen := o.(taken := o.taken + n)])
  }

  function Sent(l: Lane, n: nat, fail: bool): Lane
    requires l.pump.phase.Sending? && n <= |l.pump.chunk|
  {
    var p := l.pump;
    var rest := p.chunk[n..];
    var next := if fail then Failed(p.phase.sess, false) else AfterChunk(p, rest);
    l.(pump := p.(chunk := rest, phase := next), log := l.log + [Accepted(p.phase.sess, p.chunk[..n])])
  }

  function Moved(l: Lane, c: Shared, m: Move): Lane
    requires CanMove(l, c, m)
  {
    var p := l.pump;
    match m
    case AppWrites(g, bytes) => l.(outs := l.outs[g := l.outs[g].(written := l.outs[g].written + bytes)])
    case AppExits(g) => l.(outs := l.outs[g := l.outs[g].(ended := true)])
    case Starts => l.(pump := TakeUp(l, Newest(c)))
    case Reads(n, fail) => Read(l, n, fail)
    case Fetches =>
      if c.holder.closed then l.(pump := p.(phase := Done))
      else l.(pump := p.(phase := if p.phase.Forwarding? then Sending(c.holder.sess.value) else Ending(c.holder.sess.value)))
    case Sends(n, fail) => Sent(l, n, fail)
    case Invalidates => l.(pump := p.(phase := if p.phase.closing then Finishing else AfterChunk(p, p.chunk)))
    case Marks => l.(pump := p.(phase := Parked(true)))
    case GoesOn =>
      if Newest(c) > p.gen then l.(pump := TakeUp(l, Newest(c)))
      else l.(pump := p.(phase := if p.phase.drained then Finishing else Done))
    case Closes(ok) => l.(pump := p.(phase := if ok then Done else Failed(p.phase.sess, true)))
  }

  function MovedShared(r: Role, l: Lane, c: Shared, m: Move): Shared
    requires CanMove(l, c, m)
  {
    if m.Marks? then c.(gens := c.gens[l.pump.gen := Marked(c.gens[l.pump.gen], r)])
    else if m.Invalidates? then c.(holder := Invalidated(c.holder, l.pump.phase.sess))
    else c
  }

  // ----- What each lane keeps -----

  function Taken(outs: seq<Out>): seq<byte>
    requires Bounded(outs)
  {
    if outs == [] then []
    else Taken(outs[..|outs| - 1]) + outs[|outs| - 1].written[..outs[|outs| - 1].taken]
  }

  function Written(outs: seq<Out>): seq<byte> {
    if outs == [] then [] else Written(outs[..|outs| - 1]) + outs[|outs| - 1].written
  }

  function Received(log: seq<Accepted>): seq<byte> {
    if log == [] then [] else Received(log[..|log| - 1]) + log[|log| - 1].bytes
  }

  ghost predicate Bounded(outs: seq<Out>) {
    forall g :: 0 <= g < |outs| ==> outs[g].taken <= |outs[g].written|
  }

  /** Nothing was read beyond the generation the pump is at. */
  ghost predicate Ahead(l: Lane) {
    && Bounded(l.outs)
    && (forall g :: 0 <= g < |l.outs| && (l.pump.phase.Unstarted? || g > l.pump.gen) ==> l.outs[g].taken == 0)
    && (forall g :: 0 <= g < |l.outs| && !l.outs[g].enabled ==> l.outs[g].written == [])
  }

  /** Every byte read was accepted by a session, in order, or is still in the pump's hands. */
  ghost predicate Accounted(l: Lane) {
    Bounded(l.outs) && Received(l.log) + l.pump.chunk == Taken(l.outs)
  }

  predicate Exhausted(o: Out) { o.ended && o.taken == |o.written| }

  predicate InHand(p: Phase) { p.Forwarding? || p.Sending? || (p.Failed? && !p.closing) || p.Marking? }

  predicate Over(p: Phase) { p == Parked(true) || p.Finishing? || p.Ending? || (p.Failed? && p.closing) || p.Done? }

  /** A role no longer pending in g was read to the end there, unless g was cut, and all of it was forwarded. */
  ghost predicate Released(r: Role, l: Lane, c: Shared, g: int)
    requires 0 <= g < |l.outs| == |c.gens|
  {
    && (r in c.gens[g].pending ==> l.outs[g].enabled)
    && (l.outs[g].enabled && r !in c.gens[g].pending ==>
          && !l.pump.phase.Unstarted? && g <= l.pump.gen
          && (c.gens[g].cut || Exhausted(l.outs[g]))
          && (g == l.pump.gen ==> Over(l.pump.phase) && l.pump.chunk == []))
  }

  ghost predicate Drained(r: Role, l: Lane, c: Shared) {
    Fits(l, c) && forall g :: 0 <= g < |c.gens| ==> Released(r, l, c, g)
  }

  /** What the pump's phase says about the generation it is at. */
  ghost predicate Placed(r: Role, l: Lane, c: Shared) {
    var p := l.pump;
    && Fits(l, c)
    && (p.phase.Unstarted? || p.phase.Reading? || p.phase.Marking? || p.phase.Parked? ==> p.chunk == [])
    && (p.phase.Reading? || InHand(p.phase) ==> l.outs[p.gen].enabled)
    && (InHand(p.phase) && p.eof ==> c.gens[p.gen].cut || Exhausted(l.outs[p.gen]))
    && (p.phase.Marking? ==> p.eof)
    && (p.phase == Parked(false) ==> !l.outs[p.gen].enabled)
    && (Over(p.phase) && !p.phase.Done? ==> r !in c.gens[p.gen].pending && p.chunk == [])
  }

  /** A pump on its way out has finished the newest generation of a closed bridge, or lost its holder. */
  ghost predicate Leaving(r: Role, l: Lane, c: Shared) {
    var p := l.pump;
    && Fits(l, c)
    && (p.phase.Finishing? || p.phase.Ending? || (p.phase.Failed? && p.phase.closing) ==> c.closed && p.gen == Newest(c))
    && (p.phase.Done? && !c.holder.closed ==> c.closed && p.gen == Newest(c) && r !in c.gens[p.gen].pending && p.chunk == [])
  }

  ghost predicate InOrder(log: seq<Accepted>, bound: nat) {
    && (forall i, j :: 0 <= i < j < |log| ==> log[i].sess <= log[j].sess)
    && (forall i :: 0 <= i < |log| ==> log[i].sess < bound)
  }

  /** Sessions accept in the order they were attached. */
  ghost predicate Successive(l: Lane, h: Holder) {
    var p := l.pump.phase;
    && InOrder(l.log, h.issued)
    && (h.sess.Some? ==> h.sess.value + 1 == h.issued)
    && (p.Sending? || p.Ending? || p.Failed? ==> InOrder(l.log, p.sess + 1) && p.sess < h.issued)
  }

  ghost predicate LaneInv(r: Role, l: Lane, c: Shared) {
    Ahead(l) && Accounted(l) && Drained(r, l, c) && Placed(r, l, c) && Leaving(r, l, c) && Successive(l, c.holder)
  }

  /** Older generations are closed, and closing an undrained one is what cuts it. */
  ghost predicate Handed(gens: seq<Gen>) {
    && |gens| > 0
    && (forall g :: 0 <= g < |gens| - 1 ==> gens[g].shut)
    && (forall g :: 0 <= g < |gens| && gens[g].shut && !gens[g].cut ==> gens[g].pending == {})
  }

  // ----- Byte accounting -----

  lemma {:induction false} TakenSame(a: seq<Out>, b: seq<Out>)
    requires Bounded(a) && Bounded(b) && |a| == |b|
    requires forall g :: 0 <= g < |a| ==> a[g].taken == b[g].taken && a[g].written[..a[g].taken] == b[g].written[..b[g].taken]
    ensures Taken(a) == Taken(b)
  {
    if a == [] {
    } else {
      TakenSame(a[..|a| - 1], b[..|b| - 1]);
    }
  }

  lemma TakenLast(outs: seq<Out>)
    requires outs != [] && Bounded(outs) && outs[|outs| - 1].taken == 0
    ensures Bounded(outs[..|outs| - 1]) && Taken(outs) == Taken(outs[..|outs| - 1])
  {
    assert outs[|outs| - 1].written[..0] == [];
  }

  /** The generations after k bytes more were read from generation g. */
  function More(outs: seq<Out>, g: nat, k: nat): seq<Out>
    requires g < |outs|
  {
    outs[g := outs[g].(taken := outs[g].taken + k)]
  }

  lemma BoundedMore(outs: seq<Out>, g: nat, k: nat)
    requires Bounded(outs) && g < |outs| && outs[g].taken + k <= |outs[g].written|
    ensures Bounded(More(outs, g, k))
  {
  }

  lemma TakenMoreLast(outs: seq<Out>, k: nat)
    requires Bounded(outs) && outs != [] && outs[|outs| - 1].taken + k <= |outs[|outs| - 1].written|
    ensures var o := outs[|outs| - 1];
      Bounded(More(outs, |outs| - 1, k)) && Taken(More(outs, |outs| - 1, k)) == Taken(outs) + o.written[o.taken..o.taken + k]
  {
    var last := |outs| - 1;
    var o := outs[last];
    BoundedMore(outs, last, k);
    assert More(outs, last, k)[..last] == outs[..last];
    assert o.written[..o.taken + k] == o.written[..o.taken] + o.written[o.taken..o.taken + k];
  }

  /** Reading on at generation g, with nothing read beyond it, extends what was taken. */
  lemma {:induction false} TakenMore(outs: seq<Out>, g: nat, k: nat)
    requires Bounded(outs) && g < |outs| && outs[g].taken + k <= |outs[g].written|
    requires forall h :: g < h < |outs| ==> outs[h].taken == 0
    ensures var o := outs[g];
      Bounded(More(outs, g, k)) && Taken(More(outs, g, k)) == Taken(outs) + o.written[o.taken..o.taken + k]
  {
    BoundedMore(outs, g, k);
    var last := |outs| - 1;
    if g == last {
      TakenMoreLast(outs, k);
    } else {
      var front, more := outs[..last], More(outs, g, k);
      assert front[g] == outs[g];
      TakenMore(front, g, k);
      assert more[..last] == More(front, g, k);
      assert Taken(outs) == Taken(front) by { TakenLast(outs); }
      assert Taken(more) == Taken(more[..last]) by { TakenLast(more); }
    }
  }

  lemma TakenNext(outs: seq<Out>, o: Out)
    requires Bounded(outs) && o.taken == 0
    ensures Bounded(outs + [o]) && Taken(outs + [o]) == Taken(outs)
  {
    assert (outs + [o])[..|outs|] == outs;
  }

  lemma ReceivedNext(log: seq<Accepted>, a: Accepted)
    ensures Received(log + [a]) == Received(log) + a.bytes
  {
    assert (log + [a])[..|log|] == log;
  }

  /** With every earlier generation read to the end, what was taken is a prefix of what was written. */
  lemma {:induction false} TakenIsPrefix(outs: seq<Out>, k: nat)
    requires Bounded(outs) && k < |outs|
    requires forall g :: 0 <= g < k ==> outs[g].taken == |outs[g].written|
    requires forall g :: k < g < |outs| ==> outs[g].taken == 0
    ensures Taken(outs) <= Written(outs)
    ensures outs[k].taken == |outs[k].written| && k == |outs| - 1 ==> Taken(outs) == Written(outs)
  {
    var last := |outs| - 1;
    if last == 0 {
    } else {
      TakenIsPrefix(outs[..last], if k == last then k - 1 else k);
    }
  }

  // ----- Each move keeps each lane's invariant -----

  lemma ReadKeepsBytes(l: Lane, n: nat, fail: bool)
    requires Ahead(l) && Accounted(l) && l.pump.phase.Reading? && l.pump.chunk == []
    requires l.pump.gen < |l.outs| && l.outs[l.pump.gen].taken + n <= |l.outs[l.pump.gen].written|
    ensures Ahead(Read(l, n, fail)) && Accounted(Read(l, n, fail))
  {
    TakenMore(l.outs, l.pump.gen, n);
  }

  lemma SendKeepsBytes(l: Lane, n: nat, fail: bool)
    requires Ahead(l) && Accounted(l) && l.pump.phase.Sending? && n <= |l.pump.chunk|
    ensures Ahead(Sent(l, n, fail)) && Accounted(Sent(l, n, fail))
  {
    var chunk := l.pump.chunk;
    ReceivedNext(l.log, Accepted(l.pump.phase.sess, chunk[..n]));
    assert Received(l.log) + chunk == Received(l.log) + chunk[..n] + chunk[n..];
  }

  lemma AppKeepsBytes(l: Lane, g: nat, o: Out)
    requires Ahead(l) && Accounted(l) && g < |l.outs|
    requires o.enabled == l.outs[g].enabled && o.taken == l.outs[g].taken && l.outs[g].written <= o.written
    requires o.enabled || o.written == []
    ensures Ahead(l.(outs := l.outs[g := o])) && Accounted(l.(outs := l.outs[g := o]))
  {
    TakenSame(l.outs, l.outs[g := o]);
  }

  lemma MoveKeepsBytes(r: Role, l: Lane, c: Shared, m: Move)
    requires CanMove(l, c, m) && LaneInv(r, l, c)
    ensures Ahead(Moved(l, c, m)) && Accounted(Moved(l, c, m))
  {
    match m
    case Reads(n, fail) => ReadKeepsBytes(l, n, fail);
    case Sends(n, fail) => SendKeepsBytes(l, n, fail);
    case AppWrites(g, bytes) => AppKeepsBytes(l, g, l.outs[g].(written := l.outs[g].written + bytes));
    case AppExits(g) => AppKeepsBytes(l, g, l.outs[g].(ended := true));
    case _ =>
  }

  /** What the app does to a generation's output never un-ends it and leaves the pump where it is. */
  lemma AppKeepsPlace(r: Role, l: Lane, c: Shared, g: nat, o: Out)
    requires Placed(r, l, c) && g < |l.outs|
    requires o.enabled == l.outs[g].enabled && (Exhausted(l.outs[g]) ==> Exhausted(o))
    ensures Placed(r, l.(outs := l.outs[g := o]), c)
  {
  }

  lemma ReadKeepsPlace(r: Role, l: Lane, c: Shared, n: nat, fail: bool)
    requires CanMove(l, c, Reads(n, fail)) && Placed(r, l, c) && Released(r, l, c, l.pump.gen) && Handed(c.gens)
    ensures Placed(r, Read(l, n, fail), c)
  {
  }

  lemma SendKeepsPlace(r: Role, l: Lane, c: Shared, n: nat, fail: bool)
    requires Placed(r, l, c) && l.pump.phase.Sending? && n <= |l.pump.chunk|
    ensures Placed(r, Sent(l, n, fail), c)
  {
  }

  lemma FetchKeepsPlace(r: Role, l: Lane, c: Shared)
    requires CanMove(l, c, Fetches) && Placed(r, l, c)
    ensures Placed(r, Moved(l, c, Fetches), c)
  {
  }

  lemma InvalidateKeepsPlace(r: Role, l: Lane, c: Shared)
    requires CanMove(l, c, Invalidates) && Placed(r, l, c)
    ensures Placed(r, Moved(l, c, Invalidates), MovedShared(r, l, c, Invalidates))
  {
  }

  lemma TurnKeepsPlace(r: Role, l: Lane, c: Shared, m: Move)
    requires CanMove(l, c, m) && Placed(r, l, c) && (m.Starts? || m.Marks? || m.GoesOn? || m.Closes?)
    ensures Placed(r, Moved(l, c, m), MovedShared(r, l, c, m))
  {
  }

  lemma MoveKeepsPlace(r: Role, l: Lane, c: Shared, m: Move)
    requires CanMove(l, c, m) && Placed(r, l, c) && Released(r, l, c, l.pump.gen) && Handed(c.gens)
    ensures Placed(r, Moved(l, c, m), MovedShared(r, l, c, m))
  {
    match m
    case AppWrites(g, bytes) => AppKeepsPlace(r, l, c, g, l.outs[g].(written := l.outs[g].written + bytes));
    case AppExits(g) => AppKeepsPlace(r, l, c, g, l.outs[g].(ended := true));
    case Reads(n, fail) => ReadKeepsPlace(r, l, c, n, fail);
    case Sends(n, fail) => SendKeepsPlace(r, l, c, n, fail);
    case Fetches => FetchKeepsPlace(r, l, c);
    case Invalidates => InvalidateKeepsPlace(r, l, c);
    case _ => TurnKeepsPlace(r, l, c, m);
  }

  lemma MoveKeepsLeaving(r: Role, l: Lane, c: Shared, m: Move)
    requires CanMove(l, c, m) && Placed(r, l, c) && Leaving(r, l, c) && Released(r, l, c, l.pump.gen)
    ensures Leaving(r, Moved(l, c, m), MovedShared(r, l, c, m))
  {
  }

  lemma AppKeepsDrain(r: Role, l: Lane, c: Shared, g: nat, o: Out)
    requires Drained(r, l, c) && g < |l.outs|
    requires o.enabled == l.outs[g].enabled && (Exhausted(l.outs[g]) ==> Exhausted(o))
    ensures Drained(r, l.(outs := l.outs[g := o]), c)
  {
    var n := l.(outs := l.outs[g := o]);
    forall k | 0 <= k < |c.gens| ensures Released(r, n, c, k) {
      assert Released(r, l, c, k);
    }
  }

  lemma ReadKeepsDrain(r: Role, l: Lane, c: Shared, n: nat, fail: bool)
    requires CanMove(l, c, Reads(n, fail)) && Drained(r, l, c)
    ensures Drained(r, Read(l, n, fail), c)
  {
    forall k | 0 <= k < |c.gens| ensures Released(r, Read(l, n, fail), c, k) {
      assert Released(r, l, c, k);
    }
  }

  lemma MarkKeepsDrain(r: Role, l: Lane, c: Shared)
    requires CanMove(l, c, Marks) && Drained(r, l, c) && Placed(r, l, c)
    ensures Drained(r, Moved(l, c, Marks), MovedShared(r, l, c, Marks))
  {
    var n, d := Moved(l, c, Marks), MovedShared(r, l, c, Marks);
    forall k | 0 <= k < |d.gens| ensures Released(r, n, d, k) {
      assert Released(r, l, c, k);
    }
  }

  lemma TurnKeepsDrain(r: Role, l: Lane, c: Shared, m: Move)
    requires CanMove(l, c, m) && Drained(r, l, c) && Placed(r, l, c) && (m.Starts? || m.GoesOn?)
    ensures Drained(r, Moved(l, c, m), c)
  {
    forall k | 0 <= k < |c.gens| ensures Released(r, Moved(l, c, m), c, k) {
      assert Released(r, l, c, k);
    }
  }

  lemma PumpKeepsDrain(r: Role, l: Lane, c: Shared, m: Move)
    requires CanMove(l, c, m) && Drained(r, l, c) && Placed(r, l, c) && (m.Fetches? || m.Sends? || m.Invalidates? || m.Closes?)
    ensures Drained(r, Moved(l, c, m), MovedShared(r, l, c, m))
  {
    var n, d := Moved(l, c, m), MovedShared(r, l, c, m);
    forall k | 0 <= k < |d.gens| ensures Released(r, n, d, k) {
      assert Released(r, l, c, k);
    }
  }

  lemma MoveKeepsDrain(r: Role, l: Lane, c: Shared, m: Move)
    requires CanMove(l, c, m) && Drained(r, l, c) && Placed(r, l, c)
    ensures Drained(r, Moved(l, c, m), MovedShared(r, l, c, m))
  {
    match m
    case AppWrites(g, bytes) => AppKeepsDrain(r, l, c, g, l.outs[g].(written := l.outs[g].written + bytes));
    case AppExits(g) => AppKeepsDrain(r, l, c, g, l.outs[g].(ended := true));
    case Reads(n, fail) => ReadKeepsDrain(r, l, c, n, fail);
    case Marks => MarkKeepsDrain(r, l, c);
    case Starts => TurnKeepsDrain(r, l, c, m);
    case GoesOn => TurnKeepsDrain(r, l, c, m);
    case _ => PumpKeepsDrain(r, l, c, m);
  }

  lemma SendKeepsOrder(l: Lane, h: Holder, n: nat, fail: bool)
    requires Successive(l, h) && l.pump.phase.Sending? && n <= |l.pump.chunk|
    ensures Successive(Sent(l, n, fail), h)
  {
  }

  /** Only writes add to the log; the other moves at most take up a session, drop one or turn to something else. */
  lemma TurnKeepsOrder(l: Lane, h: Holder, p: Pump, outs: seq<Out>)
    requires Successive(l, h)
    requires p.phase.Sending? || p.phase.Ending? || p.phase.Failed? ==>
      h.sess == Some(p.phase.sess) || ((l.pump.phase.Sending? || l.pump.phase.Ending? || l.pump.phase.Failed?) && p.phase.sess == l.pump.phase.sess)
    ensures Successive(l.(pump := p, outs := outs), h)
  {
  }

  lemma MoveKeepsOrder(r: Role, l: Lane, c: Shared, m: Move)
    requires CanMove(l, c, m) && Successive(l, c.holder)
    ensures Successive(Moved(l, c, m), MovedShared(r, l, c, m).holder)
  {
    match m
    case Sends(n, fail) => SendKeepsOrder(l, c.holder, n, fail);
    case _ => TurnKeepsOrder(l, c.holder, Moved(l, c, m).pump, Moved(l, c, m).outs);
  }

  /** A mark is the one move that touches the generations. */
  lemma MoveKeepsHanded(r: Role, l: Lane, c: Shared, m: Move)
    requires CanMove(l, c, m) && Handed(c.gens)
    ensures Handed(MovedShared(r, l, c, m).gens)
  {
  }

  lemma MoveKeepsLane(r: Role, l: Lane, c: Shared, m: Move)
    requires CanMove(l, c, m) && LaneInv(r, l, c) && Handed(c.gens)
    ensures LaneInv(r, Moved(l, c, m), MovedShared(r, l, c, m))
    ensures Handed(MovedShared(r, l, c, m).gens)
  {
    assert Released(r, l, c, l.pump.gen);
    MoveKeepsBytes(r, l, c, m);
    MoveKeepsPlace(r, l, c, m);
    MoveKeepsLeaving(r, l, c, m);
    MoveKeepsDrain(r, l, c, m);
    MoveKeepsOrder(r, l, c, m);
    MoveKeepsHanded(r, l, c, m);
  }

  /** For a lane at rest, nothing changed from c to d but closing, cutting and sessions. */
  ghost predicate Later(r: Role, c: Shared, d: Shared) {
    && |c.gens| == |d.gens|
    && (c.closed ==> d.closed) && (c.holder.closed ==> d.holder.closed)
    && c.holder.issued <= d.holder.issued
    && (d.holder.sess.Some? ==> d.holder.sess.value + 1 == d.holder.issued)
    && (forall g :: 0 <= g < |c.gens| ==> Kept(r, c.gens[g], d.gens[g]))
  }

  predicate Kept(r: Role, a: Gen, b: Gen) { (r in a.pending <==> r in b.pending) && (a.cut ==> b.cut) }

  lemma LaterKeepsLane(r: Role, l: Lane, c: Shared, d: Shared)
    requires LaneInv(r, l, c) && Later(r, c, d)
    ensures LaneInv(r, l, d)
  {
    assert Kept(r, c.gens[l.pump.gen], d.gens[l.pump.gen]);
    forall g | 0 <= g < |d.gens| ensures Released(r, l, d, g) {
      assert Released(r, l, c, g) && Kept(r, c.gens[g], d.gens[g]);
    }
  }

  function Extended(r: Role, l: Lane, mask: set<Role>): Lane { l.(outs := l.outs + [Out(r in mask, [], 0, false)]) }

  lemma InstallKeepsBytes(r: Role, l: Lane, mask: set<Role>)
    requires Ahead(l) && Accounted(l)
    ensures Ahead(Extended(r, l, mask)) && Accounted(Extended(r, l, mask))
  {
    TakenNext(l.outs, Out(r in mask, [], 0, false));
  }

  lemma InstallKeepsDrain(r: Role, l: Lane, c: Shared, mask: set<Role>)
    requires Drained(r, l, c)
    ensures Drained(r, Extended(r, l, mask), c.(gens := c.gens + [Fresh(mask)]))
  {
    var n, d := Extended(r, l, mask), c.(gens := c.gens + [Fresh(mask)]);
    forall g | 0 <= g < |d.gens| ensures Released(r, n, d, g) {
      if g < |c.gens| {
        assert Released(r, l, c, g);
      }
    }
  }

  lemma InstallKeepsLane(r: Role, l: Lane, c: Shared, mask: set<Role>)
    requires LaneInv(r, l, c) && !c.closed
    ensures LaneInv(r, Extended(r, l, mask), c.(gens := c.gens + [Fresh(mask)]))
  {
    InstallKeepsBytes(r, l, mask);
    InstallKeepsDrain(r, l, c, mask);
  }

  // ----- The whole bridge -----

  datatype Rewire = Idle | Draining(prior: nat, mask: set<Role>) | Installing(prior: nat, mask: set<Role>)

  datatype State = State(lanes: map<Role, Lane>, shared: Shared, rewire: Rewire)

  datatype Event =
    | LaneMoves(role: Role, move: Move)
    | Attaches
    | Drops(sess: nat)
    | RewireBegins(spec: Spec)
    | RewireCloses(timeout: bool)
    | RewireInstalls
    | AppCloses
    | EndsClose
    | HolderShuts

  ghost predicate Total(m: map<Role, Lane>) { forall r: Role :: r in m }

  function Start(spec: Spec): State {
    var mask := DrainMask(spec);
    State(map r: Role | r in {Pty, Stdout, Stderr} :: StartLane(r, mask),
          Shared([Fresh(mask)], false, Holder(None, false, 0)), Idle)
  }

  /** Rewires are serialized; a rewire leaves the drain when the generation drained, the time ran out or the bridge closed. */
  ghost predicate Enabled(s: State, e: Event) {
    var c := s.shared;
    && Total(s.lanes) && |c.gens| > 0
    && match e
       case LaneMoves(r, m) => CanMove(s.lanes[r], c, m)
       case RewireBegins(_) => s.rewire.Idle?
       case RewireCloses(timeout) =>
         && s.rewire.Draining? && s.rewire.prior < |c.gens|
         && (c.gens[s.rewire.prior].pending == {} || timeout || c.closed)
       case RewireInstalls => s.rewire.Installing?
       case EndsClose => c.closed
       case HolderShuts => c.closed
       case _ => true
  }

  ghost function Step(s: State, e: Event): State
    requires Enabled(s, e)
  {
    var c := s.shared;
    match e
    case LaneMoves(r, m) => s.(lanes := s.lanes[r := Moved(s.lanes[r], c, m)], shared := MovedShared(r, s.lanes[r], c, m))
    case Attaches => s.(shared := c.(holder := Attached(c.holder)))
    case Drops(x) => s.(shared := c.(holder := Invalidated(c.holder, x)))
    case RewireBegins(spec) => if c.closed then s else s.(rewire := Draining(Newest(c), DrainMask(spec)))
    case RewireCloses(_) =>
      s.(shared := ShutGen(c, s.rewire.prior), rewire := Installing(s.rewire.prior, s.rewire.mask))
    case RewireInstalls =>
      if c.closed || Newest(c) != s.rewire.prior then s.(rewire := Idle)
      else Installed(s)
    case AppCloses => s.(shared := c.(closed := true))
    case EndsClose => s.(shared := ShutGen(c, Newest(c)))
    case HolderShuts => s.(shared := c.(holder := ShutDown(c.holder)))
  }

  function ShutGen(c: Shared, g: nat): Shared
    requires g < |c.gens|
  {
    c.(gens := c.gens[g := Shut(c.gens[g])])
  }

  ghost function Installed(s: State): State
    requires Total(s.lanes) && s.rewire.Installing?
  {
    State(map r: Role {:trigger s.lanes[r]} | r in s.lanes :: Extended(r, s.lanes[r], s.rewire.mask),
          s.shared.(gens := s.shared.gens + [Fresh(s.rewire.mask)]), Idle)
  }

  /** A rewire in progress is about the newest generation, and has closed it by the time it installs. */
  ghost predicate RewireInv(s: State) {
    && (!s.rewire.Idle? ==> s.rewire.prior == Newest(s.shared))
    && (s.rewire.Installing? ==> s.rewire.prior < |s.shared.gens| && s.shared.gens[s.rewire.prior].shut)
  }

  ghost predicate Inv(s: State) {
    && Total(s.lanes)
    && (forall r: Role {:trigger s.lanes[r]} :: LaneInv(r, s.lanes[r], s.shared))
    && Handed(s.shared.gens)
    && RewireInv(s)
  }

  function StartLane(r: Role, mask: set<Role>): Lane {
    Lane(Pump(Unstarted, 0, [], false), [Out(r in mask, [], 0, false)], [])
  }

  lemma StartLaneInv(r: Role, mask: set<Role>)
    ensures LaneInv(r, StartLane(r, mask), Shared([Fresh(mask)], false, Holder(None, false, 0)))
  {
    TakenLast(StartLane(r, mask).outs);
  }

  lemma StartInv(spec: Spec)
    ensures Inv(Start(spec))
  {
    var s := Start(spec);
    forall r: Role ensures r in s.lanes {
      match r
      case Pty =>
      case Stdout =>
      case Stderr =>
    }
    forall r: Role ensures LaneInv(r, s.lanes[r], s.shared) {
      StartLaneInv(r, DrainMask(spec));
    }
  }

  lemma MoveIsLater(q: Role, r: Role, l: Lane, c: Shared, m: Move)
    requires CanMove(l, c, m) && Successive(l, c.holder) && q != r
    ensures Later(q, c, MovedShared(r, l, c, m))
  {
  }

  lemma LaneMoveKeepsInv(s: State, r: Role, m: Move)
    requires Inv(s) && Enabled(s, LaneMoves(r, m))
    ensures Inv(Step(s, LaneMoves(r, m)))
  {
    var t := Step(s, LaneMoves(r, m));
    assert LaneInv(r, s.lanes[r], s.shared);
    MoveKeepsLane(r, s.lanes[r], s.shared, m);
    forall q: Role ensures LaneInv(q, t.lanes[q], t.shared) {
      if q != r {
        assert LaneInv(q, s.lanes[q], s.shared);
        MoveIsLater(q, r, s.lanes[r], s.shared, m);
        LaterKeepsLane(q, s.lanes[q], s.shared, t.shared);
      }
    }
  }

  lemma InstallKeepsInv(s: State)
    requires Inv(s) && Enabled(s, RewireInstalls)
    ensures Inv(Step(s, RewireInstalls))
  {
    var t := Step(s, RewireInstalls);
    if !s.shared.closed {
      forall q: Role ensures LaneInv(q, t.lanes[q], t.shared) {
        assert LaneInv(q, s.lanes[q], s.shared);
        InstallKeepsLane(q, s.lanes[q], s.shared, s.rewire.mask);
      }
    }
  }

  lemma OtherIsLater(q: Role, s: State, e: Event)
    requires Total(s.lanes) && Successive(s.lanes[q], s.shared.holder) && RewireInv(s)
    requires Enabled(s, e) && !e.LaneMoves? && !e.RewireInstalls?
    ensures Step(s, e).lanes == s.lanes && Later(q, s.shared, Step(s, e).shared)
  {
  }

  lemma OtherKeepsHanded(s: State, e: Event)
    requires Enabled(s, e) && Handed(s.shared.gens) && RewireInv(s) && !e.LaneMoves? && !e.RewireInstalls?
    ensures Handed(Step(s, e).shared.gens) && RewireInv(Step(s, e))
  {
  }

  lemma OtherKeepsInv(s: State, e: Event)
    requires Inv(s) && Enabled(s, e) && !e.LaneMoves? && !e.RewireInstalls?
    ensures Inv(Step(s, e))
  {
    var t := Step(s, e);
    forall q: Role ensures LaneInv(q, t.lanes[q], t.shared) {
      assert LaneInv(q, s.lanes[q], s.shared);
      OtherIsLater(q, s, e);
      LaterKeepsLane(q, s.lanes[q], s.shared, t.shared);
    }
    OtherKeepsHanded(s, e);
  }

  lemma StepKeepsInv(s: State, e: Event)
    requires Inv(s) && Enabled(s, e)
    ensures Inv(Step(s, e))
  {
    match e
    case LaneMoves(r, m) => LaneMoveKeepsInv(s, r, m);
    case RewireInstalls => InstallKeepsInv(s);
    case _ => OtherKeepsInv(s, e);
  }

  ghost predicate Leads(s: State, e: Event, t: State) { Enabled(s, e) && t == Step(s, e) }

  ghost predicate Run(spec: Spec, ss: seq<State>, es: seq<Event>) {
    && |ss| == |es| + 1
    && ss[0] == Start(spec)
    && forall i :: 0 <= i < |es| ==> Leads(ss[i], es[i], ss[i + 1])
  }

  lemma {:induction false} RunKeepsInv(spec: Spec, ss: seq<State>, es: seq<Event>, n: nat)
    requires Run(spec, ss, es) && n < |ss|
    ensures Inv(ss[n])
  {
    if n == 0 {
      StartInv(spec);
    } else {
      RunKeepsInv(spec, ss, es, n - 1);
      assert Leads(ss[n - 1], es[n - 1], ss[(n - 1) + 1]);
      StepKeepsInv(ss[n - 1], es[n - 1]);
    }
  }

  // ----- What every run guarantees -----

  /** No generation before k was cut. */
  ghost predicate Uncut(gens: seq<Gen>, k: int) { forall g :: 0 <= g < |gens| && g < k ==> !gens[g].cut }

  /** A generation the pump has left was read to its end, unless it was cut. */
  lemma PastIsExhausted(s: State, r: Role, g: nat)
    requires Inv(s) && g < Newest(s.shared)
    ensures s.shared.gens[g].cut || Exhausted(s.lanes[r].outs[g]) || (!s.lanes[r].outs[g].enabled && s.lanes[r].outs[g].written == [])
  {
    assert LaneInv(r, s.lanes[r], s.shared);
    assert Released(r, s.lanes[r], s.shared, g);
  }

  lemma ReceivedIsPrefix(s: State, r: Role)
    requires Inv(s) && Uncut(s.shared.gens, s.lanes[r].pump.gen)
    ensures Received(s.lanes[r].log) <= Written(s.lanes[r].outs)
  {
    var l := s.lanes[r];
    assert LaneInv(r, l, s.shared);
    var k := if l.pump.phase.Unstarted? then 0 else l.pump.gen;
    forall g | 0 <= g < k ensures l.outs[g].taken == |l.outs[g].written| {
      PastIsExhausted(s, r, g);
    }
    TakenIsPrefix(l.outs, k);
  }

  /** The event closes the ends of generation g because the time ran out, with some role of it not drained. */
  ghost predicate TimesOut(s: State, e: Event, g: nat) {
    e == RewireCloses(true) && s.rewire.Draining? && s.rewire.prior == g < |s.shared.gens| && s.shared.gens[g].pending != {}
  }

  /** Before n the drain of generation g ran out of time. */
  ghost predicate TimedOut(ss: seq<State>, es: seq<Event>, n: nat, g: nat)
    requires n <= |es| <= |ss|
  {
    exists k :: 0 <= k < n && TimesOut(ss[k], es[k], g)
  }

  lemma StepCuts(s: State, e: Event, g: nat)
    requires Enabled(s, e) && RewireInv(s) && g < |Step(s, e).shared.gens| && Step(s, e).shared.gens[g].cut
    requires g < |s.shared.gens| ==> !s.shared.gens[g].cut
    ensures TimesOut(s, e, g) || (s.shared.closed && g == Newest(s.shared))
    ensures |Step(s, e).shared.gens| == |s.shared.gens|
  {
  }

  lemma RewiresInRun(spec: Spec, ss: seq<State>, es: seq<Event>, n: nat)
    requires Run(spec, ss, es) && n < |ss|
    ensures RewireInv(ss[n])
  {
    RunKeepsInv(spec, ss, es, n);
  }

  /** A closed bridge stays closed and gets no new generation. */
  lemma ClosedIsFinal(s: State, e: Event)
    requires Enabled(s, e) && s.shared.closed
    ensures Step(s, e).shared.closed && |Step(s, e).shared.gens| == |s.shared.gens|
  {
  }

  lemma {:induction false} ClosedHasCause(spec: Spec, ss: seq<State>, es: seq<Event>, n: nat)
    requires Run(spec, ss, es) && n < |ss| && ss[n].shared.closed
    ensures exists k :: 0 <= k < n && es[k].AppCloses?
  {
    if n == 0 {
      assert false;
    } else {
      assert Leads(ss[n - 1], es[n - 1], ss[(n - 1) + 1]);
      if ss[n - 1].shared.closed {
        ClosedHasCause(spec, ss, es, n - 1);
      } else {
        assert es[n - 1].AppCloses?;
      }
    }
  }

  /** In every run, a generation is cut by its own drain running out of time, or else it is the last one of a shut-down bridge. */
  lemma {:induction false} CutHasCause(spec: Spec, ss: seq<State>, es: seq<Event>, n: nat, g: nat)
    requires Run(spec, ss, es) && n < |ss| && g < |ss[n].shared.gens| && ss[n].shared.gens[g].cut
    ensures TimedOut(ss, es, n, g) || (ss[n].shared.closed && g == Newest(ss[n].shared))
    ensures ss[n].shared.closed ==> exists k :: 0 <= k < n && es[k].AppCloses?
  {
    if ss[n].shared.closed {
      ClosedHasCause(spec, ss, es, n);
    }
    if n == 0 {
      assert false;
    } else {
      var s, e := ss[n - 1], es[n - 1];
      assert Leads(s, e, ss[(n - 1) + 1]);
      if g < |s.shared.gens| && s.shared.gens[g].cut {
        CutHasCause(spec, ss, es, n - 1, g);
      } else {
        RewiresInRun(spec, ss, es, n - 1);
        StepCuts(s, e, g);
      }
      if s.shared.closed {
        ClosedIsFinal(s, e);
      }
    }
  }

  /**
   * In every run, for every role: the bytes the sessions accepted, in the order the sessions were attached, and
   * the bytes in hand are exactly what was read; a generation left behind was read completely unless its drain ran
   * out of time; and where that happened to none of them the accepted bytes are a prefix of all the generations
   * wrote, in order and without repetition, shut down or not.
   */
  lemma OutputIsFaithful(spec: Spec, ss: seq<State>, es: seq<Event>, n: nat, r: Role)
    requires Run(spec, ss, es) && n < |ss|
    ensures Inv(ss[n])
    ensures var l := ss[n].lanes[r];
      && Received(l.log) + l.pump.chunk == Taken(l.outs)
      && InOrder(l.log, ss[n].shared.holder.issued)
      && (Uncut(ss[n].shared.gens, l.pump.gen) ==> Received(l.log) <= Written(l.outs))
    ensures forall g: nat :: g < Newest(ss[n].shared) && ss[n].lanes[r].outs[g].enabled ==>
      Exhausted(ss[n].lanes[r].outs[g]) || ss[n].shared.gens[g].cut
    ensures (forall g: nat :: g < ss[n].lanes[r].pump.gen ==> !TimedOut(ss, es, n, g)) ==>
      Received(ss[n].lanes[r].log) <= Written(ss[n].lanes[r].outs)
    ensures forall g: nat :: g < Newest(ss[n].shared) && ss[n].lanes[r].outs[g].enabled ==>
      Exhausted(ss[n].lanes[r].outs[g]) || TimedOut(ss, es, n, g)
  {
    RunKeepsInv(spec, ss, es, n);
    var s := ss[n];
    assert LaneInv(r, s.lanes[r], s.shared);
    forall g: nat | g < Newest(s.shared) && s.shared.gens[g].cut ensures TimedOut(ss, es, n, g) {
      CutHasCause(spec, ss, es, n, g);
    }
    if Uncut(s.shared.gens, s.lanes[r].pump.gen) {
      ReceivedIsPrefix(s, r);
    }
    forall g: nat | g < Newest(s.shared) && s.lanes[r].outs[g].enabled
      ensures Exhausted(s.lanes[r].outs[g]) || s.shared.gens[g].cut
    {
      PastIsExhausted(s, r, g);
    }
  }

  /** The drain barrier: once the newest generation has drained, everything ever written has been accepted, if nothing was cut. */
  lemma DrainedIsDelivered(s: State, r: Role)
    requires Inv(s) && s.shared.gens[Newest(s.shared)].pending == {} && Uncut(s.shared.gens, |s.shared.gens|)
    requires s.lanes[r].outs[Newest(s.shared)].enabled
    ensures Received(s.lanes[r].log) == Written(s.lanes[r].outs)
  {
    var l, k := s.lanes[r], Newest(s.shared);
    assert LaneInv(r, l, s.shared);
    assert Released(r, l, s.shared, k);
    forall g | 0 <= g < k ensures l.outs[g].taken == |l.outs[g].written| {
      PastIsExhausted(s, r, g);
    }
    TakenIsPrefix(l.outs, k);
  }

  /** When every pump of the newest generation returned before the holder was shut down, closing its ends cuts nothing. */
  lemma DrainedShutdownCutsNothing(s: State)
    requires Inv(s) && !s.shared.holder.closed
    requires forall r :: r in s.shared.gens[Newest(s.shared)].pending ==> s.lanes[r].pump.phase.Done?
    ensures s.shared.gens[Newest(s.shared)].pending == {}
    ensures Shut(s.shared.gens[Newest(s.shared)]).cut == s.shared.gens[Newest(s.shared)].cut
  {
    forall r: Role ensures r !in s.shared.gens[Newest(s.shared)].pending {
      assert LaneInv(r, s.lanes[r], s.shared);
    }
  }

  /** A rewire never finds the generation changed under it: only the closing of the bridge makes it fail. */
  lemma RewireFailsOnlyWhenClosed(s: State)
    requires Inv(s) && s.rewire.Installing?
    ensures |Step(s, RewireInstalls).shared.gens| == |s.shared.gens| <==> s.shared.closed
  {
  }
}
