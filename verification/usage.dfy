/** The guest usage service: its admission gate across reattach attempts and pauses, and its request stream. */
module Usage {

  datatype Option<T> = None | Some(value: T)

  /** The fields guarded by the service mutex; connections are numbered, cancelled holds those a pause cut off. */
  datatype Gate = Gate(
    paused: bool, resuming: bool, generation: nat,
    epoch: string, lastRequest: nat, conn: Option<nat>, cancelled: set<nat>)

  function Paused(g: Gate): Gate {
    g.(paused := true, resuming := false, generation := g.generation + 1,
       cancelled := g.cancelled + if g.conn.Some? then {g.conn.value} else {})
  }

  function Resumed(g: Gate, newHost: bool): Gate {
    g.(paused := false, resuming := g.paused || g.resuming, generation := g.generation + 1,
       epoch := if newHost then "" else g.epoch, lastRequest := if newHost then 0 else g.lastRequest)
  }

  function Committed(g: Gate, generation: nat): Gate {
    if g.generation == generation then g.(resuming := false) else g
  }

  function RolledBack(g: Gate, generation: nat): Gate {
    if g.generation == generation then Paused(g) else g
  }

  /** Whether a request on connection c may be served now. */
  predicate Admits(g: Gate, c: nat, epoch: string, request: nat) {
    !g.paused && c !in g.cancelled && (g.epoch == "" || g.epoch == epoch) && request > g.lastRequest
  }

  // The longest read budget, in nanoseconds.
  const SECOND: nat := 1_000_000_000

  /** A decoded request is well formed and admitted. */
  predicate Serves(g: Gate, c: nat, epoch: string, request: nat, budget: int) {
    epoch != "" && |epoch| <= 128 && request != 0 && 0 < budget <= SECOND && Admits(g, c, epoch, request)
  }

  function Entered(g: Gate, c: nat): Gate {
    if !g.paused && g.conn == None then g.(conn := Some(c)) else g
  }

  function Asked(g: Gate, c: nat, epoch: string, request: nat, budget: int): Gate {
    if Serves(g, c, epoch, request, budget) then g.(epoch := epoch, lastRequest := request) else g
  }

  function Left(g: Gate, c: nat): Gate {
    if g.conn == Some(c) then g.(conn := None) else g
  }

  class Service {
    var paused: bool
    var resuming: bool
    var generation: nat
    var epoch: string
    var lastRequest: nat
    var conn: Option<nat>
    var cancelled: set<nat>

    function View(): Gate
      reads this
    {
      Gate(paused, resuming, generation, epoch, lastRequest, conn, cancelled)
    }

    constructor ()
      ensures View() == Gate(false, false, 0, "", 0, None, {})
    {
      paused, resuming, generation, epoch, lastRequest, conn, cancelled := false, false, 0, "", 0, None, {};
    }

    // The locked part of pauseLocked; joining the network owner happens outside the lock.
    method Pause()
      modifies this
      ensures View() == Paused(old(View()))
    {
      paused := true;
      resuming := false;
      generation := generation + 1;
      if conn.Some? {
        cancelled := cancelled + {conn.value};
      }
    }

    method RollbackResume(attempt: nat)
      modifies this
      ensures View() == RolledBack(old(View()), attempt)
    {
      if generation != attempt {
        return;
      }
      Pause();
    }

    method Resume(newHost: bool) returns (needsRollback: bool, attempt: nat)
      modifies this
      ensures View() == Resumed(old(View()), newHost)
      ensures needsRollback == View().resuming && attempt == View().generation
    {
      generation := generation + 1;
      needsRollback, attempt := paused || resuming, generation;
      resuming := needsRollback;
      if newHost {
        epoch := "";
        lastRequest := 0;
      }
      paused := false;
    }

    method CommitResume(attempt: nat)
      modifies this
      ensures View() == Committed(old(View()), attempt)
    {
      if generation == attempt {
        resuming := false;
      }
    }

    // serve: take the only connection slot. Connection numbers are not reused.
    method Enter(c: nat) returns (ok: bool)
      requires c !in cancelled
      modifies this`conn
      ensures View() == Entered(old(View()), c) && ok == (!old(paused) && old(conn) == None)
    {
      ok := !paused && conn == None;
      if ok {
        conn := Some(c);
      }
    }

    // serve: admit one decoded request of connection c.
    method Request(c: nat, e: string, id: nat, budget: int) returns (valid: bool)
      modifies this`epoch, this`lastRequest
      ensures View() == Asked(old(View()), c, e, id, budget) && valid == Serves(old(View()), c, e, id, budget)
    {
      if e == "" || |e| > 128 || id == 0 || budget <= 0 || budget > SECOND {
        return false;
      }
      valid := !paused && (epoch == "" || epoch == e) && id > lastRequest && c !in cancelled;
      if valid {
        epoch, lastRequest := e, id;
      }
    }

    method Leave(c: nat)
      modifies this`conn
      ensures View() == Left(old(View()), c)
    {
      if conn == Some(c) {
        conn := None;
      }
    }
  }

  /** An accepted request. */
  datatype Accepted = Accepted(conn: nat, epoch: string, id: nat)

  /**
   The service together with the reattach attempts that have resumed it and not yet finished (each with its
   needsRollback), and what a history of events so far amounts to: whether it was ever paused, whether an attempt
   committed while it was the newest since the last pause, and the requests accepted since the last new host.
   */
  datatype World = World(
    gate: Gate, outstanding: map<nat, bool>, everPaused: bool, committed: bool, accepted: seq<Accepted>)

  datatype Event =
    | Pause
    | Begin(newHost: bool)   // an attempt resumes the service
    | Succeed(attempt: nat)  // thaw, ACK and MUX all worked: commitResume
    | Fail(attempt: nat)     // one of them failed: rollbackResume if the attempt owes one
    | Enter(c: nat)
    | Ask(c: nat, epoch: string, id: nat, budget: int)
    | Leave(c: nat)

  predicate Enabled(w: World, e: Event) {
    match e
    case Succeed(a) => a in w.outstanding
    case Fail(a) => a in w.outstanding
    case Enter(c) => c !in w.gate.cancelled
    case Ask(c, _, _, _) => w.gate.conn == Some(c)
    case _ => true
  }

  function Step(w: World, e: Event): World
    requires Enabled(w, e)
  {
    match e
    case Pause => w.(gate := Paused(w.gate), everPaused := true, committed := false)
    case Begin(newHost) =>
      var g := Resumed(w.gate, newHost);
      w.(gate := g, outstanding := w.outstanding[g.generation := g.resuming], accepted := if newHost then [] else w.accepted)
    case Succeed(a) =>
      w.(gate := Committed(w.gate, a), outstanding := w.outstanding - {a}, committed := w.committed || a == w.gate.generation)
    case Fail(a) =>
      if w.outstanding[a] then
        var rolled := a == w.gate.generation;
        w.(gate := RolledBack(w.gate, a), outstanding := w.outstanding - {a},
           everPaused := w.everPaused || rolled, committed := w.committed && !rolled)
      else
        w.(outstanding := w.outstanding - {a})
    case Enter(c) => w.(gate := Entered(w.gate, c))
    case Ask(c, epoch, id, budget) =>
      w.(gate := Asked(w.gate, c, epoch, id, budget),
         accepted := w.accepted + if Serves(w.gate, c, epoch, id, budget) then [Accepted(c, epoch, id)] else [])
    case Leave(c) => w.(gate := Left(w.gate, c))
  }

  const Start := World(Gate(false, false, 0, "", 0, None, {}), map[], false, false, [])

  ghost predicate Leads(w: World, e: Event, v: World) { Enabled(w, e) && v == Step(w, e) }

  ghost predicate Run(ws: seq<World>, es: seq<Event>) {
    && |ws| == |es| + 1 && ws[0] == Start
    && forall k :: 0 <= k < |es| ==> Leads(ws[k], es[k], ws[k + 1])
  }

  /** Accepted requests since the last new host share one epoch and have strictly increasing IDs. */
  ghost predicate InOrder(w: World) {
    && (w.accepted == [] <==> w.gate.epoch == "") && (w.accepted == [] ==> w.gate.lastRequest == 0)
    && (forall i :: 0 <= i < |w.accepted| ==> w.accepted[i].epoch == w.gate.epoch && w.accepted[i].id <= w.gate.lastRequest)
    && (forall i, j :: 0 <= i < j < |w.accepted| ==> w.accepted[i].id < w.accepted[j].id)
  }

  ghost predicate GateInv(w: World) {
    && (forall a :: a in w.outstanding ==> 0 < a <= w.gate.generation)
    // Open but uncommitted: the newest attempt is still outstanding and owes the rollback.
    && (w.gate.resuming ==> !w.gate.paused && w.gate.generation in w.outstanding && w.outstanding[w.gate.generation])
    && (w.gate.generation in w.outstanding && w.outstanding[w.gate.generation] ==> w.gate.resuming)
    // Open and settled after a pause: some attempt committed while it was the newest.
    && (w.everPaused && !w.gate.paused && !w.gate.resuming ==> w.committed)
    && (w.gate.paused ==> w.everPaused && !w.committed && w.gate.generation !in w.outstanding)
  }

  ghost predicate Inv(w: World) {
    GateInv(w) && InOrder(w)
  }

  lemma StepKeepsGate(w: World, e: Event)
    requires GateInv(w) && Enabled(w, e)
    ensures GateInv(Step(w, e))
  {
  }

  lemma StepKeepsOrder(w: World, e: Event)
    requires InOrder(w) && Enabled(w, e)
    ensures InOrder(Step(w, e))
  {
    if e.Ask? && Step(w, e) != w {
      var v := Step(w, e);
      forall i | 0 <= i < |v.accepted|
        ensures v.accepted[i].epoch == v.gate.epoch && v.accepted[i].id <= v.gate.lastRequest
      {
        if i < |w.accepted| {
          assert v.accepted[i] == w.accepted[i];
        }
      }
    }
  }

  lemma {:induction false} RunKeepsInv(ws: seq<World>, es: seq<Event>, n: nat)
    requires Run(ws, es) && n < |ws|
    ensures Inv(ws[n])
  {
    if n == 0 {
    } else {
      RunKeepsInv(ws, es, n - 1);
      assert Leads(ws[n - 1], es[n - 1], ws[(n - 1) + 1]);
      StepKeepsGate(ws[n - 1], es[n - 1]);
      StepKeepsOrder(ws[n - 1], es[n - 1]);
    }
  }

  /** An attempt that is no longer the newest cannot change the gate, however it ends. */
  lemma OvertakenIsHarmless(w: World, attempt: nat)
    requires attempt in w.outstanding && attempt != w.gate.generation
    ensures Step(w, Succeed(attempt)).gate == w.gate && Step(w, Fail(attempt)).gate == w.gate
  {
  }

  /** Once no attempt is outstanding, a gate that was ever paused is open only if the newest attempt committed. */
  lemma SettledGate(ws: seq<World>, es: seq<Event>, n: nat)
    requires Run(ws, es) && n < |ws| && ws[n].outstanding == map[]
    ensures !ws[n].gate.resuming
    ensures ws[n].everPaused ==> (!ws[n].gate.paused <==> ws[n].committed)
  {
    RunKeepsInv(ws, es, n);
  }

  /** If no attempt after the last pause succeeded, the gate is closed again when all have failed. */
  lemma {:induction false} FailuresClose(ws: seq<World>, es: seq<Event>, p: nat, n: nat)
    requires Run(ws, es) && p < n <= |es| && es[p] == Event.Pause
    requires forall k :: p < k < n ==> !es[k].Succeed?
    ensures !ws[n].committed && ws[n].everPaused
    ensures ws[n].outstanding == map[] ==> ws[n].gate.paused
  {
    assert Leads(ws[n - 1], es[n - 1], ws[(n - 1) + 1]);
    if n == p + 1 {
    } else {
      FailuresClose(ws, es, p, n - 1);
    }
    RunKeepsInv(ws, es, n);
  }

  lemma StaysCancelled(w: World, e: Event, c: nat)
    requires Enabled(w, e) && (c in w.gate.cancelled || (e.Pause? && w.gate.conn == Some(c)))
    ensures c in Step(w, e).gate.cancelled
  {
  }

  lemma CancelledIsRefused(w: World, e: Event)
    requires Enabled(w, e) && e.Ask? && e.c in w.gate.cancelled
    ensures Step(w, e) == w
  {
  }

  lemma {:induction false} CancelledStays(ws: seq<World>, es: seq<Event>, p: nat, n: nat, c: nat)
    requires Run(ws, es) && p < n <= |es| && es[p] == Event.Pause && ws[p].gate.conn == Some(c)
    ensures c in ws[n].gate.cancelled
  {
    if n == p + 1 {
    } else {
      CancelledStays(ws, es, p, n - 1, c);
    }
    assert Leads(ws[n - 1], es[n - 1], ws[(n - 1) + 1]);
    StaysCancelled(ws[n - 1], es[n - 1], c);
  }

  /** A connection that a pause cut off never has another request accepted, even after the gate reopens. */
  lemma CancelledStaysSilent(ws: seq<World>, es: seq<Event>, p: nat, n: nat, c: nat)
    requires Run(ws, es) && p < n < |es| && es[p] == Event.Pause && ws[p].gate.conn == Some(c)
    requires es[n].Ask? && es[n].c == c
    ensures ws[n + 1] == ws[n]
  {
    CancelledStays(ws, es, p, n, c);
    assert Leads(ws[n], es[n], ws[n + 1]);
    CancelledIsRefused(ws[n], es[n]);
  }

  /** One observed source: at most one read in flight, and its handle closed once, never under a read. */
  class Source {
    var busy: bool
    var closed: bool
    var closes: nat   // calls of the close callback
    ghost var inFlight: nat  // reads in flight

    ghost predicate Valid()
      reads this
    {
      inFlight == (if busy then 1 else 0) && closes == (if closed && !busy then 1 else 0)
    }

    constructor ()
      ensures Valid() && !busy && !closed
    {
      busy, closed, closes, inFlight := false, false, 0, 0;
    }

    method Begin() returns (started: bool)
      requires Valid()
      modifies this
      ensures Valid() && closed == old(closed)
      ensures started <==> !old(busy) && !old(closed)
      ensures busy == (old(busy) || started)
    {
      if busy || closed {
        return false;
      }
      busy := true;
      inFlight := inFlight + 1;
      return true;
    }

    // The reading goroutine's end.
    method Finish()
      requires Valid() && busy
      modifies this
      ensures Valid() && !busy && closed == old(closed)
      ensures closes == old(closes) + if closed then 1 else 0
    {
      busy := false;
      inFlight := inFlight - 1;
      if closed {
        closes := closes + 1;
      }
    }

    method Stop()
      requires Valid()
      modifies this
      ensures Valid() && closed && busy == old(busy)
      ensures closes > old(closes) <==> !old(closed) && !busy
    {
      if closed {
        return;
      }
      closed := true;
      if !busy {
        closes := closes + 1;
      }
    }
  }
}
