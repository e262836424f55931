/** The promise-chain transaction queue in front of the admission store. Every call takes the
    current tail promise as its predecessor and installs its own promise as the new tail; it runs
    once the predecessor is resolved and resolves its own promise when it ends, whether its
    operation succeeded or failed. Beginning and ending are separate steps here, so the chain
    alone, and not the atomicity of an operation, keeps two calls from overlapping. */
module TransactionQueue {
  import opened Admission

  datatype Phase = Waiting | Running | Settled(reply: Reply)

  datatype Call = Call(op: Op, predecessor: nat, own: nat, phase: Phase)

  /** `log` and `places` only observe: the operations in the order in which they took effect, and where
      in that order those of the calls stand. */
  datatype Queue = Queue(store: State, calls: seq<Call>, resolved: set<nat>, tail: nat,
                         queued: int, inFlight: int, maxInFlight: int,
                         transactions: nat, contention: nat, log: seq<Op>, places: seq<nat>)

  function Start(store: State): Queue {
    Queue(store, [], {0}, 0, 0, 0, 0, 0, 0, [], [])
  }

  /** The synthetic expiry and the clock act on the store without a transaction. */
  predicate Direct(op: Op) { op.Expire? || op.Tick? }

  datatype Event = Arrive(op: Op) | Begin(call: nat) | End(call: nat) | Outside(op: Op)

  predicate Enabled(q: Queue, e: Event) {
    match e
    case Arrive(op) => !Direct(op)
    case Begin(i) => i < |q.calls| && q.calls[i].phase.Waiting? && q.calls[i].predecessor in q.resolved
    case End(i) => i < |q.calls| && q.calls[i].phase.Running?
    case Outside(op) => Direct(op)
  }

  function Step(q: Queue, e: Event): Queue
    requires Enabled(q, e)
  {
    match e
    case Arrive(op) =>
      var own := |q.calls| + 1;
      q.(calls := q.calls + [Call(op, q.tail, own, Waiting)], tail := own,
         queued := q.queued + 1, transactions := q.transactions + 1,
         contention := q.contention + if q.queued > 0 then 1 else 0)
    case Begin(i) =>
      var inFlight := q.inFlight + 1;
      q.(calls := q.calls[i := q.calls[i].(phase := Running)], queued := q.queued - 1,
         inFlight := inFlight, maxInFlight := if q.maxInFlight < inFlight then inFlight else q.maxInFlight)
    case End(i) =>
      var (store, reply) := Apply(q.store, q.calls[i].op);
      q.(store := store, calls := q.calls[i := q.calls[i].(phase := Settled(reply))],
         inFlight := q.inFlight - 1, resolved := q.resolved + {q.calls[i].own},
         log := q.log + [q.calls[i].op], places := q.places + [|q.log|])
    case Outside(op) => q.(store := Apply(q.store, op).0, log := q.log + [op])
  }

  ghost predicate Reaches(q: Queue, events: seq<Event>, q': Queue)
    decreases events
  {
    if events == [] then q' == q
    else Enabled(q, events[0]) && Reaches(Step(q, events[0]), events[1..], q')
  }

  // ---- What every step keeps ----

  /** Calls before `d` have settled, call `d` is next or running, and the rest wait. */
  ghost predicate Chained(q: Queue, d: nat) {
    && d <= |q.calls| == q.tail
    && (forall i :: 0 <= i < |q.calls| ==>
          q.calls[i].predecessor == i && q.calls[i].own == i + 1 && !Direct(q.calls[i].op))
    && (forall j: nat :: j in q.resolved <==> j <= d)
    && (forall i :: 0 <= i < d ==> q.calls[i].phase.Settled?)
    && (d < |q.calls| ==> !q.calls[d].phase.Settled?)
    && (forall i :: d < i < |q.calls| ==> q.calls[i].phase.Waiting?)
    && q.inFlight == (if d < |q.calls| && q.calls[d].phase.Running? then 1 else 0)
    && q.queued == |q.calls| - d - q.inFlight
    && q.maxInFlight == (if d > 0 || q.inFlight > 0 then 1 else 0)
    && q.transactions == |q.calls|
  }

  /** The reply that the operation at this place of the log got. */
  function ReplyAt(start: State, log: seq<Op>, place: nat): Reply
    requires place < |log|
  {
    Apply(Run(start, log[..place]), log[place]).1
  }

  /** The settled calls stand in the log in their order, each with the reply it got there; everything
      else in the log acts directly. */
  ghost predicate Logged(q: Queue, start: State, d: nat) {
    && q.store == Run(start, q.log) && |q.places| == d <= |q.calls|
    && (forall i, j :: 0 <= i < j < d ==> q.places[i] < q.places[j])
    && (forall i :: 0 <= i < d ==>
          && q.places[i] < |q.log| && q.log[q.places[i]] == q.calls[i].op
          && q.calls[i].phase == Settled(ReplyAt(start, q.log, q.places[i])))
    && (forall k :: 0 <= k < |q.log| && k !in q.places ==> Direct(q.log[k]))
  }

  lemma Chains(q: Queue, d: nat, e: Event)
    requires Chained(q, d) && Enabled(q, e)
    ensures Chained(Step(q, e), if e.End? then d + 1 else d)
    ensures e.Begin? || e.End? ==> e.call == d
  {}

  lemma ReplyStays(start: State, log: seq<Op>, more: seq<Op>, place: nat)
    requires place < |log|
    ensures ReplyAt(start, log + more, place) == ReplyAt(start, log, place)
  {
    assert (log + more)[..place] == log[..place];
  }

  lemma LogsCall(q: Queue, start: State, d: nat)
    requires Chained(q, d) && Logged(q, start, d) && Enabled(q, End(d))
    ensures Logged(Step(q, End(d)), start, d + 1)
  {
    var q', op := Step(q, End(d)), q.calls[d].op;
    RunSnoc(start, q.log, op);
    forall i | 0 <= i < d ensures ReplyAt(start, q'.log, q.places[i]) == ReplyAt(start, q.log, q.places[i]) {
      ReplyStays(start, q.log, [op], q.places[i]);
    }
    OthersStayDirect(q.log, q.places, op);
  }

  lemma OthersStayDirect(log: seq<Op>, places: seq<nat>, op: Op)
    requires forall k :: 0 <= k < |log| && k !in places ==> Direct(log[k])
    ensures forall k :: 0 <= k < |log + [op]| && k !in places + [|log|] ==> Direct((log + [op])[k])
  {
    assert (places + [|log|])[|places|] == |log|;
    forall k | 0 <= k < |log + [op]| && k !in places + [|log|] ensures Direct((log + [op])[k]) {
      assert forall i :: 0 <= i < |places| ==> (places + [|log|])[i] == places[i];
    }
  }

  lemma LogsOutside(q: Queue, start: State, d: nat, op: Op)
    requires Logged(q, start, d) && Direct(op)
    ensures Logged(Step(q, Outside(op)), start, d)
  {
    RunSnoc(start, q.log, op);
    forall i | 0 <= i < d
      ensures ReplyAt(start, q.log + [op], q.places[i]) == ReplyAt(start, q.log, q.places[i])
    {
      ReplyStays(start, q.log, [op], q.places[i]);
    }
  }

  lemma {:induction false} ServedThroughout(q: Queue, start: State, d: nat, events: seq<Event>, q': Queue)
    returns (d': nat)
    requires Chained(q, d) && Logged(q, start, d) && Reaches(q, events, q')
    ensures Chained(q', d') && Logged(q', start, d')
    decreases events
  {
    if events == [] {
      d' := d;
    } else {
      var e := events[0];
      Chains(q, d, e);
      if e.End? {
        LogsCall(q, start, d);
      } else if e.Outside? {
        LogsOutside(q, start, d, e.op);
      }
      d' := ServedThroughout(Step(q, e), start, if e.End? then d + 1 else d, events[1..], q');
    }
  }

  function WaitingAmong(q: Queue, n: nat): set<nat>
    requires n <= |q.calls|
  {
    set i: nat | i < n && q.calls[i].phase.Waiting?
  }

  lemma {:induction false} WaitingSize(q: Queue, first: nat, n: nat)
    requires first <= n <= |q.calls|
    requires forall i :: 0 <= i < n ==> (q.calls[i].phase.Waiting? <==> first <= i)
    ensures |WaitingAmong(q, n)| == n - first
    decreases n
  {
    if first < n {
      WaitingSize(q, first, n - 1);
      assert WaitingAmong(q, n) == WaitingAmong(q, n - 1) + {n - 1};
    } else {
      assert WaitingAmong(q, n) == {};
    }
  }

  /** Whatever the interleaving of arrivals, beginnings, ends, synthetic expiries and the clock: the store
      is that of running the log, in which the first `served` calls stand in arrival order, each with the
      reply it got there, and otherwise only expiries and clock ticks; no two calls run at once; the
      queued counter counts the calls that have arrived and not begun; and while a call is unserved
      exactly the next one in order can move. */
  lemma HistoryIsSequential(store: State, events: seq<Event>, q: Queue) returns (served: nat)
    requires Reaches(Start(store), events, q)
    ensures served <= |q.calls| && q.store == Run(store, q.log) && |q.places| == served
    ensures forall i, j :: 0 <= i < j < served ==> q.places[i] < q.places[j]
    ensures forall i :: 0 <= i < |q.calls| ==> (q.calls[i].phase.Settled? <==> i < served)
    ensures forall i :: 0 <= i < served ==>
      && q.places[i] < |q.log| && q.log[q.places[i]] == q.calls[i].op
      && q.calls[i].phase.reply == ReplyAt(store, q.log, q.places[i])
    ensures forall k :: 0 <= k < |q.log| && k !in q.places ==> Direct(q.log[k])
    ensures forall i, j ::
      (0 <= i < |q.calls| && 0 <= j < |q.calls| && q.calls[i].phase.Running? && q.calls[j].phase.Running?)
      ==> i == j
    ensures q.queued == |WaitingAmong(q, |q.calls|)| && q.maxInFlight <= 1
    ensures served < |q.calls| ==> Enabled(q, Begin(served)) || Enabled(q, End(served))
    ensures forall i: nat :: Enabled(q, Begin(i)) || Enabled(q, End(i)) ==> i == served
  {
    served := ServedThroughout(Start(store), store, 0, events, q);
    WaitingSize(q, served + q.inFlight, |q.calls|);
  }

  // ---- The counters ----

  ghost predicate SomeBegun(q: Queue) { exists i :: 0 <= i < |q.calls| && !q.calls[i].phase.Waiting? }

  lemma BegunMeansOne(q: Queue, d: nat)
    requires Chained(q, d)
    ensures q.maxInFlight == if SomeBegun(q) then 1 else 0
  {
    if d > 0 || q.inFlight > 0 { assert !q.calls[0].phase.Waiting?; }
  }

  ghost predicate SomeWait(q: Queue) { exists i :: 0 <= i < |q.calls| && q.calls[i].phase.Waiting? }

  /** The arrivals of a run that came while an earlier call had not begun. */
  ghost function InLine(q: Queue, events: seq<Event>): nat
    decreases events
  {
    if events == [] || !Enabled(q, events[0]) then 0
    else (if events[0].Arrive? && SomeWait(q) then 1 else 0) + InLine(Step(q, events[0]), events[1..])
  }

  lemma QueuedMeansWait(q: Queue, d: nat)
    requires Chained(q, d)
    ensures q.queued > 0 <==> SomeWait(q)
  {
    if q.queued > 0 { assert q.calls[|q.calls| - 1].phase.Waiting?; }
  }

  lemma {:induction false} RunCountsContention(q: Queue, d: nat, events: seq<Event>, q': Queue)
    requires Chained(q, d) && Reaches(q, events, q')
    ensures q'.contention == q.contention + InLine(q, events)
    decreases events
  {
    if events != [] {
      QueuedMeansWait(q, d);
      Chains(q, d, events[0]);
      RunCountsContention(Step(q, events[0]), if events[0].End? then d + 1 else d, events[1..], q');
    }
  }

  /** The transactions counted are the calls, the contention events those of them that arrived while an earlier
      one had not begun, and the largest number in flight is one as soon as a call has begun. */
  lemma CountersAreExact(store: State, events: seq<Event>, q: Queue)
    requires Reaches(Start(store), events, q)
    ensures q.transactions == |q.calls| && q.contention == InLine(Start(store), events)
    ensures q.maxInFlight == if SomeBegun(q) then 1 else 0
  {
    var served := ServedThroughout(Start(store), store, 0, events, q);
    BegunMeansOne(q, served);
    RunCountsContention(Start(store), 0, events, q);
  }
}
