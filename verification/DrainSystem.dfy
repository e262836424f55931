/** The two drains running together over the shared stores, beside everything else that uses
    those stores: renewal timers, capacity probes, relationship leases and the clock. */
module DrainSystem {
  import opened Basics
  import opened Delivery
  import opened Drain
  import opened DrainRuns
  import A = Admission
  import G = GeminiSlots

  datatype System = System(preflight: Pool, paid: Pool, shared: Shared)

  datatype Event =
    | Work(role: Role, worker: nat, random: Uuid)
    | Outside(op: A.Op)
    | OutsideSlot(slotOp: G.SlotOp)

  function PoolOf(s: System, role: Role): Pool {
    if role.Preflight? then s.preflight else s.paid
  }

  predicate Enabled(s: System, e: Event) {
    e.Work? ==> CanStep(PoolOf(s, e.role), e.worker)
  }

  function Advance(expireEvery: nat, s: System, e: Event): System
    requires Enabled(s, e)
  {
    match e
    case Work(role, worker, random) =>
      var (pool, shared) := Step(expireEvery, PoolOf(s, role), worker, s.shared, random);
      if role.Preflight? then System(pool, s.paid, shared) else System(s.preflight, pool, shared)
    case Outside(op) => s.(shared := s.shared.(admission := A.Apply(s.shared.admission, op).0))
    case OutsideSlot(op) => s.(shared := s.shared.(slots := G.Apply(s.shared.slots, op).0))
  }

  ghost predicate Reaches(expireEvery: nat, s: System, events: seq<Event>, t: System)
    decreases events
  {
    if events == [] then t == s
    else Enabled(s, events[0]) && Reaches(expireEvery, Advance(expireEvery, s, events[0]), events[1..], t)
  }

  ghost predicate IsLaunched(p: Pool) { exists concurrency: nat :: p == Launched(p.queue, concurrency) }

  /** Nothing has run yet; the shared stores may hold anything. */
  ghost predicate Begins(s: System) { IsLaunched(s.preflight) && IsLaunched(s.paid) }

  /** The ids of a queue, and those of a pool that are terminal. */
  function Accepted(queue: seq<Item>): set<Id> { set i | 0 <= i < |queue| :: queue[i].id }

  function Terminal(p: Pool): set<Id> { set id | id in p.ledger && p.ledger[id].terminal }

  /** What `drain` returns once all its workers have returned. */
  predicate Drained(p: Pool) { p.cursor >= |p.queue| && p.active == 0 }

  predicate AllExited(p: Pool) { forall w :: 0 <= w < |p.workers| ==> p.workers[w].Exited? }

  // ---- Every run ----

  ghost predicate Sound(expireEvery: nat, s: System) {
    Inv(expireEvery, s.preflight) && Inv(expireEvery, s.paid)
  }

  /** Queues only grow, by retries of ids they already hold; what was taken stays taken. */
  ghost predicate Grew(p: Pool, p': Pool) {
    && p.queue <= p'.queue && p.taken <= p'.taken && |p'.workers| == |p.workers|
    && Accepted(p'.queue) == Accepted(p.queue)
  }

  lemma LaunchedIsSound(expireEvery: nat, p: Pool)
    requires IsLaunched(p)
    ensures Inv(expireEvery, p)
  {
    assert BusySet(p.workers) == {};
    forall id ensures LedgerOk(expireEvery, p.workers, EntryOf(p, id), id) {
      assert Callers(p.workers, id) == {};
    }
    forall id | Known(p.queue, id) ensures Accounted(p, id) {
      var i :| 0 <= i < |p.queue| && p.queue[i].id == id;
      assert p.cursor <= i;
    }
  }

  lemma AppendKnown(queue: seq<Item>, item: Item)
    requires Known(queue, item.id)
    ensures Accepted(queue + [item]) == Accepted(queue)
  {
    var longer := queue + [item];
    forall id | id in Accepted(queue) ensures id in Accepted(longer) {
      var i :| 0 <= i < |queue| && queue[i].id == id;
      assert longer[i].id == id;
    }
  }

  lemma StepGrows(expireEvery: nat, p: Pool, w: nat, shared: Shared, random: Uuid)
    requires Inv(expireEvery, p) && CanStep(p, w)
    ensures Grew(p, Step(expireEvery, p, w, shared, random).0)
  {
    var x, p' := p.workers[w], Step(expireEvery, p, w, shared, random).0;
    assert WorkerFits(p, x);
    if x.Busy? && !x.stage.Leaving? {
      ResumeMoves(expireEvery, x.item, EntryOf(p, x.item.id), x.stage, shared, random);
      var o := Resume(expireEvery, x.item, EntryOf(p, x.item.id), x.stage, shared, random);
      if o.next.Retry? {
        AppendKnown(p.queue, o.next.item);
      } else {
        assert p'.queue == p.queue;
      }
    }
  }

  lemma EventIsSound(expireEvery: nat, s: System, e: Event)
    requires Sound(expireEvery, s) && Enabled(s, e)
    ensures var t := Advance(expireEvery, s, e);
      Sound(expireEvery, t) && Grew(s.preflight, t.preflight) && Grew(s.paid, t.paid)
  {
    if e.Work? {
      StepKeeps(expireEvery, PoolOf(s, e.role), e.worker, s.shared, e.random);
      StepGrows(expireEvery, PoolOf(s, e.role), e.worker, s.shared, e.random);
    }
  }

  lemma {:induction false} RunIsSound(expireEvery: nat, s: System, events: seq<Event>, t: System)
    requires Sound(expireEvery, s) && Reaches(expireEvery, s, events, t)
    ensures Sound(expireEvery, t) && Grew(s.preflight, t.preflight) && Grew(s.paid, t.paid)
    decreases events
  {
    if events != [] {
      EventIsSound(expireEvery, s, events[0]);
      RunIsSound(expireEvery, Advance(expireEvery, s, events[0]), events[1..], t);
    }
  }

  lemma Follows(expireEvery: nat, start: System, events: seq<Event>, s: System)
    requires Begins(start) && Reaches(expireEvery, start, events, s)
    ensures Sound(expireEvery, s) && Grew(start.preflight, s.preflight) && Grew(start.paid, s.paid)
  {
    LaunchedIsSound(expireEvery, start.preflight);
    LaunchedIsSound(expireEvery, start.paid);
    RunIsSound(expireEvery, start, events, s);
  }

  // ---- No lost work ----

  lemma DrainedIsTerminal(expireEvery: nat, p: Pool)
    requires Inv(expireEvery, p) && AllExited(p)
    ensures Drained(p) <==> |p.workers| > 0 || p.cursor == |p.queue|
    ensures Drained(p) ==> Terminal(p) == Accepted(p.queue)
  {
    assert BusySet(p.workers) == {};
    if |p.workers| > 0 { assert WorkerFits(p, p.workers[0]); }
    if Drained(p) {
      forall id | id in Accepted(p.queue) ensures id in Terminal(p) {
        var i :| 0 <= i < |p.queue| && p.queue[i].id == id;
        assert Known(p.queue, id) && Accounted(p, id);
      }
      forall id | id in Terminal(p) ensures id in Accepted(p.queue) {
        var i :| 0 <= i < |p.queue| && p.queue[i].id == id;
      }
    }
  }

  /** Whatever the interleaving: a drain that returns without a delivery having thrown reports a
      drained queue, and its terminal ids are exactly the ids it accepted; so nothing is lost. */
  lemma NoLostWork(expireEvery: nat, start: System, events: seq<Event>, s: System, role: Role)
    requires Begins(start) && Reaches(expireEvery, start, events, s)
    requires AllExited(PoolOf(s, role)) && |PoolOf(start, role).workers| > 0
    ensures Drained(PoolOf(s, role))
    ensures Terminal(PoolOf(s, role)) == Accepted(PoolOf(start, role).queue)
    ensures |Accepted(PoolOf(start, role).queue)| - |Terminal(PoolOf(s, role))| == 0
  {
    Follows(expireEvery, start, events, s);
    DrainedIsTerminal(expireEvery, PoolOf(s, role));
  }

  /** Until then no accepted id is forgotten: it is terminal, queued, in flight, or a delivery threw. */
  lemma NothingForgotten(expireEvery: nat, start: System, events: seq<Event>, s: System, role: Role, id: Id)
    requires Begins(start) && Reaches(expireEvery, start, events, s)
    requires id in Accepted(PoolOf(start, role).queue)
    ensures Accounted(PoolOf(s, role), id)
  {
    Follows(expireEvery, start, events, s);
    var p := PoolOf(s, role);
    assert id in Accepted(p.queue);
    var i :| 0 <= i < |p.queue| && p.queue[i].id == id;
    assert Known(p.queue, id);
  }

  // ---- The pool itself ----

  /** Every queue position before the cursor was taken exactly once and in order, `active` is the
      number of busy workers, and unless all workers have ended, one of them can step. */
  lemma PoolIsLive(expireEvery: nat, start: System, events: seq<Event>, s: System, role: Role) returns (w: nat)
    requires Begins(start) && Reaches(expireEvery, start, events, s)
    ensures var p := PoolOf(s, role);
      && p.cursor <= |p.queue| && p.taken == p.queue[..p.cursor]
      && p.active == |BusySet(p.workers)|
      && (CanStep(p, w) || forall v :: 0 <= v < |p.workers| ==> p.workers[v].Exited? || p.workers[v].Dead?)
  {
    Follows(expireEvery, start, events, s);
    var p := PoolOf(s, role);
    w := 0;
    if v :| 0 <= v < |p.workers| && !p.workers[v].Exited? && !p.workers[v].Dead? {
      w := v;
      assert WorkerFits(p, p.workers[v]);
      if p.workers[v] == Parked(false) {
        assert BusySet(p.workers) != {};
        w :| w in BusySet(p.workers);
      }
    }
  }

  /** Some delivery of the role ends in the run. */
  ghost predicate SomeLeaves(expireEvery: nat, s: System, events: seq<Event>, role: Role)
    decreases events
  {
    events != [] && Enabled(s, events[0])
    && (|| Leaves(s, events[0], role)
        || SomeLeaves(expireEvery, Advance(expireEvery, s, events[0]), events[1..], role))
  }

  predicate Leaves(s: System, e: Event, role: Role) {
    && e.Work? && e.role == role && e.worker < |PoolOf(s, role).workers|
    && PoolOf(s, role).workers[e.worker].Busy? && PoolOf(s, role).workers[e.worker].stage.Leaving?
  }

  lemma {:induction false} ParkedStays(expireEvery: nat, s: System, events: seq<Event>, t: System, role: Role, w: nat)
    requires Reaches(expireEvery, s, events, t) && !SomeLeaves(expireEvery, s, events, role)
    requires w < |PoolOf(s, role).workers| && PoolOf(s, role).workers[w] == Parked(false)
    ensures w < |PoolOf(t, role).workers| && PoolOf(t, role).workers[w] == Parked(false)
    decreases events
  {
    if events != [] {
      ParkedStays(expireEvery, Advance(expireEvery, s, events[0]), events[1..], t, role, w);
    }
  }

  /** A worker that finds nothing to take while somebody is busy sleeps until a delivery of its role ends. */
  lemma ParkedSleeps(expireEvery: nat, s: System, role: Role, w: nat, random: Uuid, events: seq<Event>, t: System)
    requires Enabled(s, Work(role, w, random)) && !PoolOf(s, role).workers[w].Busy?
    requires PoolOf(s, role).cursor >= |PoolOf(s, role).queue| && PoolOf(s, role).active > 0
    requires var next := Advance(expireEvery, s, Work(role, w, random));
      Reaches(expireEvery, next, events, t) && !SomeLeaves(expireEvery, next, events, role)
    ensures w < |PoolOf(t, role).workers| && PoolOf(t, role).workers[w] == Parked(false)
    ensures !Enabled(t, Work(role, w, random))
  {
    ParkedStays(expireEvery, Advance(expireEvery, s, Work(role, w, random)), events, t, role, w);
  }

  ghost predicate SomeExited(p: Pool) { exists w :: 0 <= w < |p.workers| && p.workers[w].Exited? }

  lemma ExitedStep(expireEvery: nat, p: Pool, w: nat, shared: Shared, random: Uuid)
    requires Inv(expireEvery, p) && CanStep(p, w) && SomeExited(p)
    ensures var p' := Step(expireEvery, p, w, shared, random).0;
      && SomeExited(p') && p'.active == 0 && p'.cursor == |p'.queue|
      && p'.queue == p.queue && p'.ledger == p.ledger && p'.taken == p.taken
  {
    var v :| 0 <= v < |p.workers| && p.workers[v].Exited?;
    assert WorkerFits(p, p.workers[v]);
    assert w !in BusySet(p.workers);
    assert Step(expireEvery, p, w, shared, random).0.workers[v].Exited?;
  }

  /** Once one worker has returned, the pool is idle for good: nothing is queued, taken or recorded
      again, whatever the other role and the stores do. */
  lemma {:induction false} ExitIsFinal(expireEvery: nat, s: System, events: seq<Event>, t: System, role: Role)
    requires Sound(expireEvery, s) && Reaches(expireEvery, s, events, t) && SomeExited(PoolOf(s, role))
    ensures var p, p' := PoolOf(s, role), PoolOf(t, role);
      && p.active == p'.active == 0 && p.cursor == p'.cursor == |p.queue|
      && p'.queue == p.queue && p'.ledger == p.ledger && p'.taken == p.taken
    decreases events
  {
    var p := PoolOf(s, role);
    var v :| 0 <= v < |p.workers| && p.workers[v].Exited?;
    assert WorkerFits(p, p.workers[v]);
    if events != [] {
      var e := events[0];
      if e.Work? {
        StepKeeps(expireEvery, PoolOf(s, e.role), e.worker, s.shared, e.random);
        if e.role == role { ExitedStep(expireEvery, p, e.worker, s.shared, e.random); }
      }
      ExitIsFinal(expireEvery, Advance(expireEvery, s, e), events[1..], t, role);
    }
  }

  // ---- How often the providers are called ----

  /** Gemini is called at most once per id over all deliveries, retries and capacity denials; a
      terminal paid id has had its one call, and its Gemini ledger is `succeeded`. */
  lemma GeminiAtMostOnce(expireEvery: nat, start: System, events: seq<Event>, s: System, role: Role, id: Id)
    requires Begins(start) && Reaches(expireEvery, start, events, s)
    ensures var e := EntryOf(PoolOf(s, role), id);
      && e.geminiStarts <= 1
      && (id.role.Preflight? ==> e.geminiStarts == 0)
      && (id.role.Paid? && e.terminal ==> e.gemini == Some(Succeeded) && e.geminiStarts == 1)
  {
    Follows(expireEvery, start, events, s);
    assert LedgerOk(expireEvery, PoolOf(s, role).workers, EntryOf(PoolOf(s, role), id), id);
    GeminiCounts(PoolOf(s, role).workers, EntryOf(PoolOf(s, role), id), id);
  }

  /** No id is terminal without an Apify call. An id that cannot take the synthetic expiry path gets
      at most one, an eligible id at most two; each preflight terminal effect has its own call. */
  lemma ApifyAtMostTwice(expireEvery: nat, start: System, events: seq<Event>, s: System, role: Role, id: Id)
    requires Begins(start) && Reaches(expireEvery, start, events, s)
    ensures var e := EntryOf(PoolOf(s, role), id);
      && e.apifyStarts <= (if Eligible(expireEvery, id) then 2 else 1)
      && (e.terminal ==> e.apifyStarts >= 1)
      && (id.role.Preflight? ==> e.effects <= e.apifyStarts)
      && (e.terminal <==> e.effects >= 1)
  {
    Follows(expireEvery, start, events, s);
    assert LedgerOk(expireEvery, PoolOf(s, role).workers, EntryOf(PoolOf(s, role), id), id);
  }
}
