/** The exec registry: one reaper hands child statuses to session goroutines, and quiesce waits for sessions to end. */
module ExecRegistry {

  datatype Option<T> = None | Some(value: T)

  type Pid = nat
  type Status = int
  type Conn = nat

  /** Registry state; status channels hold at most one value and are numbered, as are quiesce barriers. */
  datatype Registry = Registry(
    waiters: map<Pid, nat>, pending: map<Pid, Status>, live: set<Pid>, channels: seq<seq<Status>>,
    sessions: set<Conn>, drained: Option<nat>, barriers: nat, closed: set<nat>, quiescing: bool)

  const Empty := Registry(map[], map[], {}, [], {}, None, 0, {}, false)

  function Admit(r: Registry, c: Conn): Registry {
    if r.quiescing then r else r.(sessions := r.sessions + {c})
  }

  function End(r: Registry, c: Conn): Registry {
    var left := r.sessions - {c};
    if left == {} && r.drained.Some? then r.(sessions := left, drained := None, closed := r.closed + {r.drained.value})
    else r.(sessions := left)
  }

  /** A new channel, already holding the status if the child was reaped first. */
  function Registered(r: Registry, pid: Pid): Registry {
    if pid in r.pending then
      r.(pending := r.pending - {pid}, channels := r.channels + [[r.pending[pid]]])
    else
      r.(waiters := r.waiters[pid := |r.channels|], live := r.live + {pid}, channels := r.channels + [[]])
  }

  /** The reaper's hand-over would block: the waiter's channel is full. */
  predicate SendBlocks(r: Registry, pid: Pid) {
    pid in r.waiters && r.waiters[pid] < |r.channels| && r.channels[r.waiters[pid]] != []
  }

  function Delivered(r: Registry, pid: Pid, st: Status): Registry {
    var s := r.(live := r.live - {pid});
    if pid in r.waiters then
      var ch := r.waiters[pid];
      s.(waiters := r.waiters - {pid}, channels := if ch < |r.channels| then r.channels[ch := r.channels[ch] + [st]] else r.channels)
    else
      s.(pending := r.pending[pid := st])
  }

  function Forgotten(r: Registry, pid: Pid): Registry {
    r.(waiters := r.waiters - {pid}, live := r.live - {pid}, pending := r.pending - {pid})
  }

  function Quiescing(r: Registry): Registry {
    var q := r.(quiescing := true);
    if r.sessions == {} then q.(barriers := r.barriers + 1, closed := r.closed + {r.barriers})
    else if r.drained.None? then q.(barriers := r.barriers + 1, drained := Some(r.barriers))
    else q
  }

  /** The barrier beginQuiesce hands out. */
  function Barrier(r: Registry): nat {
    if r.sessions != {} && r.drained.Some? then r.drained.value else r.barriers
  }

  /** The registry as the source updates it, one method per critical section. */
  class Reg {
    var waiters: map<Pid, nat>
    var pending: map<Pid, Status>
    var live: set<Pid>
    var channels: seq<seq<Status>>
    var sessions: set<Conn>
    var drained: Option<nat>
    var barriers: nat
    var closed: set<nat>
    var quiescing: bool

    function View(): Registry
      reads this
    {
      Registry(waiters, pending, live, channels, sessions, drained, barriers, closed, quiescing)
    }

    constructor ()
      ensures View() == Empty
    {
      waiters, pending, live, channels, sessions := map[], map[], {}, [], {};
      drained, barriers, closed, quiescing := None, 0, {}, false;
    }

    method BeginSession(c: Conn) returns (admitted: bool)
      modifies this
      ensures View() == Admit(old(View()), c) && admitted == !old(quiescing)
    {
      if quiescing {
        return false;
      }
      sessions := sessions + {c};
      return true;
    }

    method EndSession(c: Conn)
      modifies this
      ensures View() == End(old(View()), c)
    {
      sessions := sessions - {c};
      if sessions == {} && drained.Some? {
        closed := closed + {drained.value};
        drained := None;
      }
    }

    method Register(pid: Pid) returns (channel: nat, allowed: bool)
      modifies this
      ensures View() == Registered(old(View()), pid)
      ensures channel == |old(channels)| && allowed == !quiescing
    {
      channel := |channels|;
      channels := channels + [[]];
      if pid in pending {
        channels := channels[channel := [pending[pid]]];
        pending := pending - {pid};
        return channel, !quiescing;
      }
      waiters := waiters[pid := channel];
      live := live + {pid};
      return channel, !quiescing;
    }

    method Deliver(pid: Pid, st: Status) returns (handled: bool)
      requires forall p :: p in waiters ==> waiters[p] < |channels|
      modifies this
      ensures View() == Delivered(old(View()), pid, st) && handled
    {
      live := live - {pid};
      if pid in waiters {
        var channel := waiters[pid];
        waiters := waiters - {pid};
        channels := channels[channel := channels[channel] + [st]];
        return true;
      }
      pending := pending[pid := st];
      return true;
    }

    method Done(pid: Pid)
      modifies this
      ensures View() == Forgotten(old(View()), pid)
    {
      waiters := waiters - {pid};
      live := live - {pid};
      pending := pending - {pid};
    }

    method BeginQuiesce() returns (pids: set<Pid>, conns: set<Conn>, barrier: nat)
      modifies this
      ensures View() == Quiescing(old(View())) && barrier == Barrier(old(View()))
      ensures pids == live && conns == sessions
    {
      quiescing := true;
      pids, conns := live, sessions;
      if sessions == {} {
        barrier := barriers;
        barriers := barriers + 1;
        closed := closed + {barrier};
        return;
      }
      if drained.None? {
        drained := Some(barriers);
        barriers := barriers + 1;
      }
      barrier := drained.value;
    }

    method EndQuiesce()
      modifies this`quiescing
      ensures !quiescing
    {
      quiescing := false;
    }
  }

  /** What has happened to one exec child: the channel it was registered with, its exit status, what its session got. */
  datatype Life = Life(channel: Option<nat>, status: Option<Status>, received: seq<Status>)

  datatype World = World(reg: Registry, lives: map<Pid, Life>)

  datatype Event =
    | Fork(pid: Pid)
    | Register(pid: Pid)
    | Reap(pid: Pid, st: Status)
    | Receive(pid: Pid)
    | Done(pid: Pid)
    | BeginSession(c: Conn)
    | EndSession(c: Conn)
    | BeginQuiesce
    | EndQuiesce

  /** A pid is forked once until done, registered once by its session, reaped once, and done after its status came. */
  predicate Enabled(w: World, e: Event) {
    match e
    case Fork(pid) => pid !in w.lives
    case Register(pid) => pid in w.lives && w.lives[pid].channel.None?
    case Reap(pid, _) => pid in w.lives && w.lives[pid].status.None?
    case Receive(pid) =>
      && pid in w.lives && w.lives[pid].channel.Some?
      && var ch := w.lives[pid].channel.value; ch < |w.reg.channels| && w.reg.channels[ch] != []
    case Done(pid) => pid in w.lives && w.lives[pid].received != []
    case _ => true
  }

  function Step(w: World, e: Event): World
    requires Enabled(w, e)
  {
    match e
    case Fork(pid) => w.(lives := w.lives[pid := Life(None, None, [])])
    case Register(pid) =>
      World(Registered(w.reg, pid), w.lives[pid := w.lives[pid].(channel := Some(|w.reg.channels|))])
    case Reap(pid, st) => World(Delivered(w.reg, pid, st), w.lives[pid := w.lives[pid].(status := Some(st))])
    case Receive(pid) =>
      var ch := w.lives[pid].channel.value;
      World(w.reg.(channels := w.reg.channels[ch := w.reg.channels[ch][1..]]),
            w.lives[pid := w.lives[pid].(received := w.lives[pid].received + [w.reg.channels[ch][0]])])
    case Done(pid) => World(Forgotten(w.reg, pid), w.lives - {pid})
    case BeginSession(c) => w.(reg := Admit(w.reg, c))
    case EndSession(c) => w.(reg := End(w.reg, c))
    case BeginQuiesce => w.(reg := Quiescing(w.reg))
    case EndQuiesce => w.(reg := w.reg.(quiescing := false))
  }

  /** Where a child's status is, given what has happened to the child. */
  ghost predicate Placed(r: Registry, pid: Pid, l: Life) {
    && (pid in r.waiters <==> l.channel.Some? && l.status.None?)
    && (pid in r.live <==> l.channel.Some? && l.status.None?)
    && (pid in r.pending <==> l.channel.None? && l.status.Some?)
    && (pid in r.waiters ==> r.waiters[pid] == l.channel.value)
    && (pid in r.pending ==> r.pending[pid] == l.status.value)
    && (l.channel.None? ==> l.received == [])
    && (l.channel.Some? ==>
          && l.channel.value < |r.channels|
          && l.received + r.channels[l.channel.value] == if l.status.Some? then [l.status.value] else [])
  }

  ghost predicate StatusInv(w: World) {
    && (forall pid :: pid in w.lives ==> Placed(w.reg, pid, w.lives[pid]))
    && (forall pid :: pid !in w.lives ==> pid !in w.reg.waiters && pid !in w.reg.pending && pid !in w.reg.live)
    && (forall p, q :: p in w.lives && q in w.lives && p != q && w.lives[p].channel.Some? ==>
          w.lives[p].channel != w.lives[q].channel)
    && (forall p :: p in w.lives && w.lives[p].channel.Some? ==> w.lives[p].channel.value < |w.reg.channels|)
  }

  ghost predicate BarrierInv(r: Registry) {
    && (r.drained.Some? ==> r.sessions != {} && r.drained.value < r.barriers && r.drained.value !in r.closed)
    && (forall b :: b in r.closed ==> b < r.barriers)
  }

  predicate ChildEvent(e: Event) {
    e.Fork? || e.Register? || e.Reap? || e.Receive? || e.Done?
  }

  /** What the registry keeps about children is the same in q as in r. */
  ghost predicate SameChildren(r: Registry, q: Registry) {
    q.waiters == r.waiters && q.pending == r.pending && q.live == r.live && q.channels == r.channels
  }

  lemma SameChildrenSameStatus(w: World, q: Registry)
    requires StatusInv(w) && SameChildren(w.reg, q)
    ensures StatusInv(World(q, w.lives))
  {
    forall pid | pid in w.lives ensures Placed(q, pid, w.lives[pid]) {
      assert Placed(w.reg, pid, w.lives[pid]);
    }
  }

  lemma SessionsLeaveChildren(w: World, e: Event)
    requires Enabled(w, e) && !ChildEvent(e)
    ensures SameChildren(w.reg, Step(w, e).reg) && Step(w, e).lives == w.lives
  {
  }

  lemma SessionKeepsStatus(w: World, e: Event)
    requires StatusInv(w) && Enabled(w, e) && !ChildEvent(e)
    ensures StatusInv(Step(w, e))
  {
    SessionsLeaveChildren(w, e);
    SameChildrenSameStatus(w, Step(w, e).reg);
  }

  lemma StepKeepsBarrier(w: World, e: Event)
    requires BarrierInv(w.reg) && Enabled(w, e)
    ensures BarrierInv(Step(w, e).reg)
  {
  }

  /** A child event moves only its own child's status. */
  lemma OthersStayPlaced(w: World, e: Event, pid: Pid)
    requires StatusInv(w) && Enabled(w, e) && ChildEvent(e) && pid in w.lives && pid != e.pid
    ensures var v := Step(w, e); pid in v.lives && v.lives[pid] == w.lives[pid] && Placed(v.reg, pid, v.lives[pid])
  {
    assert Placed(w.reg, pid, w.lives[pid]);
    if e.pid in w.lives {
      assert Placed(w.reg, e.pid, w.lives[e.pid]);
    }
  }

  lemma OwnStaysPlaced(w: World, e: Event)
    requires StatusInv(w) && Enabled(w, e) && (e.Fork? || e.Register? || e.Reap?)
    ensures var v := Step(w, e); e.pid in v.lives && Placed(v.reg, e.pid, v.lives[e.pid])
  {
    if e.pid in w.lives {
      assert Placed(w.reg, e.pid, w.lives[e.pid]);
    }
  }

  lemma ReceiverStaysPlaced(w: World, pid: Pid)
    requires StatusInv(w) && Enabled(w, Receive(pid))
    ensures var v := Step(w, Receive(pid)); pid in v.lives && Placed(v.reg, pid, v.lives[pid])
  {
    var l := w.lives[pid];
    assert Placed(w.reg, pid, l);
    var queue := w.reg.channels[l.channel.value];
    assert l.received + [queue[0]] + queue[1..] == l.received + queue;
  }

  lemma ChildKeepsInv(w: World, e: Event)
    requires StatusInv(w) && Enabled(w, e) && ChildEvent(e)
    ensures StatusInv(Step(w, e))
  {
    var v := Step(w, e);
    forall pid | pid in v.lives ensures Placed(v.reg, pid, v.lives[pid]) {
      if pid == e.pid && e.Receive? {
        ReceiverStaysPlaced(w, pid);
      } else if pid == e.pid {
        OwnStaysPlaced(w, e);
      } else {
        OthersStayPlaced(w, e, pid);
      }
    }
    forall p, q | p in v.lives && q in v.lives && p != q && v.lives[p].channel.Some?
      ensures v.lives[p].channel != v.lives[q].channel
    {
      if q != e.pid {
        OthersStayPlaced(w, e, q);
      }
      if p != e.pid {
        OthersStayPlaced(w, e, p);
      }
    }
  }

  ghost predicate Run(ws: seq<World>, es: seq<Event>) {
    && |ws| == |es| + 1 && ws[0] == World(Empty, map[])
    && forall k :: 0 <= k < |es| ==> Leads(ws[k], es[k], ws[k + 1])
  }

  ghost predicate Leads(w: World, e: Event, v: World) {
    Enabled(w, e) && v == Step(w, e)
  }

  lemma {:induction false} RunKeepsBarrier(ws: seq<World>, es: seq<Event>, n: nat)
    requires Run(ws, es) && n < |ws|
    ensures BarrierInv(ws[n].reg)
  {
    if n == 0 {
    } else {
      RunKeepsBarrier(ws, es, n - 1);
      assert Leads(ws[n - 1], es[n - 1], ws[(n - 1) + 1]);
      StepKeepsBarrier(ws[n - 1], es[n - 1]);
    }
  }

  lemma {:induction false} RunKeepsStatus(ws: seq<World>, es: seq<Event>, n: nat)
    requires Run(ws, es) && n < |ws|
    ensures StatusInv(ws[n])
  {
    if n == 0 {
    } else {
      RunKeepsStatus(ws, es, n - 1);
      assert Leads(ws[n - 1], es[n - 1], ws[(n - 1) + 1]);
      if ChildEvent(es[n - 1]) {
        ChildKeepsInv(ws[n - 1], es[n - 1]);
      } else {
        SessionKeepsStatus(ws[n - 1], es[n - 1]);
      }
    }
  }

  /**
   For every order of fork, registration and reaping: what a session has received and what still waits in its channel
   is its child's status once, or nothing before the child is reaped; no hand-over blocks; nothing is kept of pids
   that are not in use.
   */
  lemma StatusOnce(ws: seq<World>, es: seq<Event>, n: nat, pid: Pid)
    requires Run(ws, es) && n < |ws|
    ensures pid in ws[n].lives && ws[n].lives[pid].channel.Some? ==>
              var l := ws[n].lives[pid];
              l.channel.value < |ws[n].reg.channels| &&
              l.received + ws[n].reg.channels[l.channel.value] == if l.status.Some? then [l.status.value] else []
    ensures !SendBlocks(ws[n].reg, pid)
    ensures pid !in ws[n].lives ==> pid !in ws[n].reg.waiters && pid !in ws[n].reg.pending && pid !in ws[n].reg.live
  {
    RunKeepsStatus(ws, es, n);
    if pid in ws[n].lives {
      assert Placed(ws[n].reg, pid, ws[n].lives[pid]);
    }
  }

  /** A reaped and registered child's session can always fetch the status or has fetched it. */
  lemma StatusArrives(ws: seq<World>, es: seq<Event>, n: nat, pid: Pid)
    requires Run(ws, es) && n < |ws| && pid in ws[n].lives
    requires ws[n].lives[pid].channel.Some? && ws[n].lives[pid].status.Some?
    ensures Enabled(ws[n], Receive(pid)) || ws[n].lives[pid].received == [ws[n].lives[pid].status.value]
  {
    StatusOnce(ws, es, n, pid);
  }

  /** While quiescing, nobody is admitted. */
  lemma {:induction false} NoneAdmitted(ws: seq<World>, es: seq<Event>, p: nat, n: nat)
    requires Run(ws, es) && p < n < |ws| && es[p] == BeginQuiesce
    requires forall k :: p < k < n ==> es[k] != EndQuiesce
    ensures ws[n].reg.quiescing && ws[n].reg.sessions <= ws[p].reg.sessions
    ensures forall m :: p < m <= n ==> ws[n].reg.sessions <= ws[m].reg.sessions
  {
    assert Leads(ws[n - 1], es[n - 1], ws[(n - 1) + 1]);
    if n == p + 1 {
    } else {
      NoneAdmitted(ws, es, p, n - 1);
    }
  }

  /** An open barrier closes exactly at a step after which no session is left. */
  lemma BarrierStep(w: World, e: Event, b: nat)
    requires BarrierInv(w.reg) && Enabled(w, e) && b < w.reg.barriers && (b in w.reg.closed || w.reg.drained == Some(b))
    ensures var r := Step(w, e).reg;
            && b < r.barriers && (b in r.closed || r.drained == Some(b))
            && (b in r.closed <==> b in w.reg.closed || r.sessions == {})
  {
  }

  /** At some moment after p, up to n, no session was left. */
  ghost predicate EmptySince(ws: seq<World>, p: nat, n: nat)
    requires n < |ws|
  {
    exists m :: p < m <= n && ws[m].reg.sessions == {}
  }

  lemma EmptySinceStep(ws: seq<World>, p: nat, n: nat)
    requires p < n < |ws|
    ensures EmptySince(ws, p, n) <==> ws[n].reg.sessions == {} || EmptySince(ws, p, n - 1)
  {
  }

  lemma HandedOut(w: World)
    requires BarrierInv(w.reg)
    ensures var b, r := Barrier(w.reg), Step(w, BeginQuiesce).reg;
            b < r.barriers && (b in r.closed || r.drained == Some(b)) && (b in r.closed <==> r.sessions == {})
  {
  }

  /** The barrier handed out at p is closed at n exactly if at some moment since then no session was left. */
  lemma {:induction false} BarrierWaits(ws: seq<World>, es: seq<Event>, p: nat, n: nat)
    requires Run(ws, es) && p < n < |ws| && es[p] == BeginQuiesce
    ensures Barrier(ws[p].reg) in ws[n].reg.closed <==> EmptySince(ws, p, n)
    ensures Barrier(ws[p].reg) < ws[n].reg.barriers
    ensures Barrier(ws[p].reg) in ws[n].reg.closed || ws[n].reg.drained == Some(Barrier(ws[p].reg))
  {
    RunKeepsBarrier(ws, es, n - 1);
    EmptySinceStep(ws, p, n);
    assert Leads(ws[n - 1], es[n - 1], ws[(n - 1) + 1]);
    if n == p + 1 {
      HandedOut(ws[p]);
    } else {
      BarrierWaits(ws, es, p, n - 1);
      BarrierStep(ws[n - 1], es[n - 1], Barrier(ws[p].reg));
    }
  }

  /** What a quiescing caller waits for: until endQuiesce, its barrier is closed exactly while no session is left. */
  lemma BarrierMeansQuiet(ws: seq<World>, es: seq<Event>, p: nat, n: nat)
    requires Run(ws, es) && p < n < |ws| && es[p] == BeginQuiesce
    requires forall k :: p < k < n ==> es[k] != EndQuiesce
    ensures Barrier(ws[p].reg) in ws[n].reg.closed <==> ws[n].reg.sessions == {}
  {
    BarrierWaits(ws, es, p, n);
    NoneAdmitted(ws, es, p, n);
  }
}
