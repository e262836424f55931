/** What becomes of the admissions that the deliveries of the drains take: a delivery denied for want of
    room is queued again, and work that completes releases its admissions for good, as long as their
    leases do not run out under it. */
module DrainAdmissions {
  import opened Basics
  import opened Delivery
  import opened Drain
  import opened DrainRuns
  import opened DrainSystem
  import A = Admission
  import R = AdmissionRuns

  // ---- The operations of the admission store ----

  /** What a delivery does to the admission store at a stage, if anything. */
  function Touches(item: Item, stage: Stage, random: Uuid): Option<A.Op> {
    var key := ApifyInput(item.id).key;
    match stage
    case Acquiring(_, _) => Some(A.Acquire(ApifyInput(item.id), random))
    case Admitted(_, seen, marker) => if seen != Some(Running) && marker then Some(A.Expire(key)) else None
    case Releasing(lease, goal) =>
      Some(A.Release(key, lease.token, lease.fence, if goal.Reject? then A.PrestartRejected else A.Terminal))
    case Recovering(_, _) => Some(A.Recover(key, random))
    case Resolving(_, _) => Some(A.Resolve(key))
    case GeminiAdmitting(slot) => Some(A.Acquire(GeminiInput(item.id, slot), random))
    case GeminiReleasing(_, lease) => Some(A.Release(lease.input.key, lease.token, lease.fence, A.Terminal))
    case GeminiRecovering(_, lease) => Some(A.Recover(lease.input.key, random))
    case GeminiResolving(_, lease) => Some(A.Resolve(lease.input.key))
    case _ => None
  }

  function Applied(s: A.State, op: Option<A.Op>): A.State {
    if op.None? then s else A.Apply(s, op.value).0
  }

  lemma ResumeTouches(expireEvery: nat, item: Item, e: Entry, stage: Stage, shared: Shared, random: Uuid)
    ensures Resume(expireEvery, item, e, stage, shared, random).shared.admission
         == Applied(shared.admission, Touches(item, stage, random))
  {}

  function EventOp(s: System, e: Event): Option<A.Op> {
    match e
    case Work(role, w, random) =>
      var ws := PoolOf(s, role).workers;
      if w < |ws| && ws[w].Busy? then Touches(ws[w].item, ws[w].stage, random) else None
    case Outside(op) => Some(op)
    case OutsideSlot(_) => None
  }

  lemma EventApplies(expireEvery: nat, s: System, e: Event)
    requires Enabled(s, e)
    ensures Advance(expireEvery, s, e).shared.admission == Applied(s.shared.admission, EventOp(s, e))
  {
    if e.Work? {
      var p := PoolOf(s, e.role);
      var x := p.workers[e.worker];
      if x.Busy? && !x.stage.Leaving? {
        ResumeTouches(expireEvery, x.item, EntryOf(p, x.item.id), x.stage, s.shared, e.random);
      }
    }
  }

  // ---- Denials ----

  /** The identity has completed, or is held under other claims. */
  predicate Conflicts(s: A.State, input: A.Input) {
    input.key in s.leases
    && match s.leases[input.key].status
       case Leased =>
         s.leases[input.key].input.claim != input.claim || s.leases[input.key].input.jobClaim != input.jobClaim
       case Released(reason) => reason.Terminal?
       case RecoveryRequired => false
  }

  /** At the acquire a delivery throws exactly if its identity has completed or is held under other claims.
      Exactly if it is under recovery, or is new and its role or budget is full, the delivery is denied;
      and whatever happens until its worker's next turn, that turn queues the item again. */
  lemma DeniedIsQueuedAgain(expireEvery: nat, p: Pool, w: nat, shared: Shared, random: Uuid,
                            later: Pool, given: Shared, other: Uuid)
    requires w < |p.workers| && p.workers[w].Busy? && p.workers[w].stage.Acquiring?
    requires w < |later.workers| && later.workers[w] == Step(expireEvery, p, w, shared, random).0.workers[w]
    ensures var item, input := p.workers[w].item, ApifyInput(p.workers[w].item.id);
            var s, x := shared.admission, later.workers[w];
            var last := Step(expireEvery, later, w, given, other).0;
      && (Threw(x) <==> Conflicts(s, input))
      && ((x.Busy? && x.stage.Denied?) <==>
            if input.key in s.leases then s.leases[input.key].status.RecoveryRequired? else A.Full(s, input))
      && (x.Busy? && x.stage.Denied? ==>
            && last.queue
               == later.queue + [if p.workers[w].stage.marker then item else item.(attempt := item.attempt + 1)]
            && last.workers[w] == Busy(item, Leaving(false)))
  {}

  /** A delivery whose release came too late goes on exactly if its lease, at its turn, has run out or is
      under recovery; and then exactly if it is under recovery. */
  lemma RecoveryIsEarned(expireEvery: nat, item: Item, e: Entry, lease: A.Lease, goal: Goal, shared: Shared,
                         random: Uuid)
    ensures var s, key := shared.admission, ApifyInput(item.id).key;
      && (Resume(expireEvery, item, e, Recovering(lease, goal), shared, random).next == Go(Resolving(lease, goal)) <==>
            A.Overdue(s.leases, s.now, key) || (key in s.leases && s.leases[key].status.RecoveryRequired?))
      && (Resume(expireEvery, item, e, Resolving(lease, goal), shared, random).next == Go(Settled(goal)) <==>
            key in s.leases && s.leases[key].status.RecoveryRequired?)
  {}

  // ---- The Apify admission of completed work ----

  /** The lease is held under this token and fence, and in time. */
  predicate Current(s: A.State, key: A.Key, token: Uuid, fence: nat) {
    A.Holds(s, key, token, fence) && s.leases[key].expiresAt > s.now
  }

  /** The operation ends a lease in time as rejected before its start. */
  predicate RejectsInTime(s: A.State, op: A.Op, key: A.Key) {
    op.Release? && op.key == key && op.reason.PrestartRejected? && Current(s, key, op.token, op.fence)
  }

  /** No event of the run is of this kind. */
  ghost predicate Never(expireEvery: nat, s: System, events: seq<Event>, cut: (System, Event) -> bool)
    decreases events
  {
    events == [] || (Enabled(s, events[0]) && !cut(s, events[0])
                     && Never(expireEvery, Advance(expireEvery, s, events[0]), events[1..], cut))
  }

  /** The lease has run out when a completed delivery comes to release it, or it is still in time when an
      expiring delivery or an outsider releases it as rejected. */
  predicate Undercut(s: System, e: Event, id: Id) {
    var key := ApifyInput(id).key;
    match e
    case Work(role, w, _) =>
      var ws := PoolOf(s, role).workers;
      && w < |ws| && At(ws[w], id) && ws[w].stage.Releasing?
      && A.Holds(s.shared.admission, key, ws[w].stage.lease.token, ws[w].stage.lease.fence)
      && (ws[w].stage.goal.Complete? <==> s.shared.admission.leases[key].expiresAt <= s.shared.admission.now)
    case Outside(op) => RejectsInTime(s.shared.admission, op, key)
    case OutsideSlot(_) => false
  }

  function UndercutOf(id: Id): (System, Event) -> bool { (s: System, e: Event) => Undercut(s, e, id) }

  /** If the lease's fence is still the current one, the lease is held or has ended for good. */
  predicate Fits(s: A.State, key: A.Key, lease: A.Lease) {
    && key in s.leases && lease.fence <= s.leases[key].fence
    && (lease.fence == s.leases[key].fence ==>
          s.leases[key].status.Leased? || s.leases[key].status == A.Released(A.Terminal))
  }

  ghost predicate StageFits(s: A.State, id: Id, stage: Stage) {
    var key := ApifyInput(id).key;
    match stage
    case Admitted(lease, _, _) => Fits(s, key, lease)
    case CallingApify(lease) => Fits(s, key, lease)
    case Releasing(lease, goal) => goal.Complete? ==> Fits(s, key, lease)
    case Recovering(_, goal) => goal.Reject?
    case Resolving(_, goal) => goal.Reject?
    case Settled(goal) => goal.Complete? ==> R.ReleasedTerminal(s, key)
    case _ => true
  }

  ghost predicate PoolFits(p: Pool, s: A.State, id: Id) {
    && (forall w :: 0 <= w < |p.workers| && At(p.workers[w], id) ==> StageFits(s, id, p.workers[w].stage))
    && (EntryOf(p, id).provider == Some(Succeeded) ==> R.ReleasedTerminal(s, ApifyInput(id).key))
  }

  lemma OpKeepsFits(s: A.State, op: A.Op, id: Id, stage: Stage)
    requires StageFits(s, id, stage) && !RejectsInTime(s, op, ApifyInput(id).key)
    ensures StageFits(A.Apply(s, op).0, id, stage)
  {}

  lemma OpKeepsPool(p: Pool, s: A.State, op: Option<A.Op>, id: Id)
    requires PoolFits(p, s, id) && (op.Some? ==> !RejectsInTime(s, op.value, ApifyInput(id).key))
    ensures PoolFits(p, Applied(s, op), id)
  {
    if op.Some? {
      forall w | 0 <= w < |p.workers| && At(p.workers[w], id)
        ensures StageFits(Applied(s, op), id, p.workers[w].stage)
      {
        OpKeepsFits(s, op.value, id, p.workers[w].stage);
      }
    }
  }

  lemma EventRejectsNothing(s: System, e: Event, id: Id)
    requires !Undercut(s, e, id)
    ensures EventOp(s, e).Some? ==> !RejectsInTime(s.shared.admission, EventOp(s, e).value, ApifyInput(id).key)
  {
    if e.Work? {
      var ws := PoolOf(s, e.role).workers;
      if e.worker < |ws| && ws[e.worker].Busy? {
        IdentitiesAreDistinct(ws[e.worker].item.id, id, SlotLease(0, e.random, 0), SlotLease(0, e.random, 0));
      }
    }
  }

  /** The lease of a completed delivery has run out. */
  predicate RunOut(s: A.State, key: A.Key, lease: A.Lease) {
    A.Holds(s, key, lease.token, lease.fence) && s.leases[key].expiresAt <= s.now
  }

  lemma AcquireFits(s: A.State, input: A.Input, token: Uuid)
    ensures var (s', reply) := A.ApplyAcquire(s, input, token);
      reply.Granted? || reply.AlreadyAcquired? ==> Fits(s', input.key, reply.lease)
  {}

  lemma ReleaseFits(s: A.State, key: A.Key, lease: A.Lease)
    requires Fits(s, key, lease) && !RunOut(s, key, lease)
    ensures var (s', reply) := A.ApplyRelease(s, key, lease.token, lease.fence, A.Terminal);
      !reply.LeaseExpired? && (reply.Done? ==> R.ReleasedTerminal(s', key))
  {}

  lemma CompletionFits(expireEvery: nat, item: Item, e: Entry, lease: A.Lease, shared: Shared, random: Uuid)
    requires Fits(shared.admission, ApifyInput(item.id).key, lease)
    requires !RunOut(shared.admission, ApifyInput(item.id).key, lease)
    ensures var o := Resume(expireEvery, item, e, Releasing(lease, Complete), shared, random);
      o.entry == e
      && (o.next.Go? ==>
            o.next == Go(Settled(Complete)) && R.ReleasedTerminal(o.shared.admission, ApifyInput(item.id).key))
  {
    ReleaseFits(shared.admission, ApifyInput(item.id).key, lease);
  }

  lemma AdmissionFits(expireEvery: nat, item: Item, e: Entry, seen: Option<Mark>, marker: bool, shared: Shared,
                      random: Uuid)
    ensures var o := Resume(expireEvery, item, e, Acquiring(seen, marker), shared, random);
      o.entry == e
      && (o.next.Go? ==>
            || o.next.stage.Denied?
            || (o.next.stage.Admitted? && Fits(o.shared.admission, ApifyInput(item.id).key, o.next.stage.lease)))
  {
    AcquireFits(shared.admission, ApifyInput(item.id), random);
  }

  lemma MovesFit(expireEvery: nat, item: Item, e: Entry, stage: Stage, e': Entry, next: Next, s': A.State)
    requires Moves(expireEvery, item, e, stage, e', next) && StageFits(s', item.id, stage) && !stage.Leaving?
    requires stage.Acquiring? && next.Go? && next.stage.Admitted? ==>
      Fits(s', ApifyInput(item.id).key, next.stage.lease)
    requires stage.Releasing? && stage.goal.Complete? && next.Go? ==>
      next == Go(Settled(Complete)) && R.ReleasedTerminal(s', ApifyInput(item.id).key)
    ensures next.Go? ==> StageFits(s', item.id, next.stage)
    ensures e'.provider == Some(Succeeded) && e.provider != Some(Succeeded) ==>
      R.ReleasedTerminal(s', ApifyInput(item.id).key)
  {}

  /** The delivery itself stays fit, and records a success only once its admission has ended for good. */
  lemma ResumeFits(expireEvery: nat, item: Item, e: Entry, stage: Stage, shared: Shared, random: Uuid, o: Outcome)
    requires StageFits(shared.admission, item.id, stage) && !stage.Leaving?
    requires stage.Releasing? && stage.goal.Complete? ==>
      !RunOut(shared.admission, ApifyInput(item.id).key, stage.lease)
    requires o == Resume(expireEvery, item, e, stage, shared, random)
    requires StageFits(o.shared.admission, item.id, stage)
    ensures o.next.Go? ==> StageFits(o.shared.admission, item.id, o.next.stage)
    ensures o.entry.provider == Some(Succeeded) && e.provider != Some(Succeeded) ==>
      R.ReleasedTerminal(o.shared.admission, ApifyInput(item.id).key)
  {
    ResumeMoves(expireEvery, item, e, stage, shared, random);
    if stage.Acquiring? {
      AdmissionFits(expireEvery, item, e, stage.seen, stage.marker, shared, random);
    } else if stage.Releasing? && stage.goal.Complete? {
      CompletionFits(expireEvery, item, e, stage.lease, shared, random);
    }
    MovesFit(expireEvery, item, e, stage, o.entry, o.next, o.shared.admission);
  }

  lemma ProgressFits(p: Pool, w: nat, o: Outcome, id: Id)
    requires w < |p.workers| && p.workers[w].Busy? && PoolFits(p, o.shared.admission, id)
    requires At(p.workers[w], id) ==>
      && (o.next.Go? ==> StageFits(o.shared.admission, id, o.next.stage))
      && (o.entry.provider == Some(Succeeded) ==> R.ReleasedTerminal(o.shared.admission, ApifyInput(id).key))
    ensures PoolFits(Progress(p, w, o), o.shared.admission, id)
  {}

  lemma StepFits(expireEvery: nat, p: Pool, w: nat, shared: Shared, random: Uuid, id: Id)
    requires CanStep(p, w) && PoolFits(p, shared.admission, id)
    requires PoolFits(p, Step(expireEvery, p, w, shared, random).1.admission, id)
    requires At(p.workers[w], id) && p.workers[w].stage.Releasing? && p.workers[w].stage.goal.Complete? ==>
      !RunOut(shared.admission, ApifyInput(id).key, p.workers[w].stage.lease)
    ensures var (p', shared') := Step(expireEvery, p, w, shared, random); PoolFits(p', shared'.admission, id)
  {
    var x := p.workers[w];
    if x.Busy? && !x.stage.Leaving? {
      var o := Resume(expireEvery, x.item, EntryOf(p, x.item.id), x.stage, shared, random);
      if x.item.id == id {
        ResumeFits(expireEvery, x.item, EntryOf(p, id), x.stage, shared, random, o);
      }
      ProgressFits(p, w, o, id);
    }
  }

  ghost predicate AllFit(s: System, id: Id) {
    PoolFits(s.preflight, s.shared.admission, id) && PoolFits(s.paid, s.shared.admission, id)
  }

  lemma EventFits(expireEvery: nat, s: System, e: Event, id: Id)
    requires Enabled(s, e) && AllFit(s, id) && !Undercut(s, e, id)
    ensures AllFit(Advance(expireEvery, s, e), id)
  {
    EventApplies(expireEvery, s, e);
    EventRejectsNothing(s, e, id);
    OpKeepsPool(s.preflight, s.shared.admission, EventOp(s, e), id);
    OpKeepsPool(s.paid, s.shared.admission, EventOp(s, e), id);
    if e.Work? { StepFits(expireEvery, PoolOf(s, e.role), e.worker, s.shared, e.random, id); }
  }

  lemma {:induction false} RunFits(expireEvery: nat, s: System, events: seq<Event>, t: System, id: Id)
    requires AllFit(s, id) && Reaches(expireEvery, s, events, t) && Never(expireEvery, s, events, UndercutOf(id))
    ensures AllFit(t, id)
    decreases events
  {
    if events != [] {
      EventFits(expireEvery, s, events[0], id);
      RunFits(expireEvery, Advance(expireEvery, s, events[0]), events[1..], t, id);
    }
  }

  lemma BeginsFit(start: System, id: Id)
    requires Begins(start)
    ensures AllFit(start, id)
  {}

  /** Whatever the stores held at the start and whatever the interleaving: if no lease of the id ran out
      under its completion and none was rejected in time, an id whose Apify run is recorded as succeeded
      has ended its admission for good, and is never granted again. */
  lemma SucceededIsReleased(expireEvery: nat, start: System, events: seq<Event>, s: System, role: Role, id: Id)
    requires Begins(start) && Reaches(expireEvery, start, events, s)
    requires Never(expireEvery, start, events, UndercutOf(id))
    requires EntryOf(PoolOf(s, role), id).provider == Some(Succeeded)
    ensures R.ReleasedTerminal(s.shared.admission, ApifyInput(id).key)
    ensures !A.Regrantable(s.shared.admission, ApifyInput(id).key)
  {
    BeginsFit(start, id);
    RunFits(expireEvery, start, events, s, id);
  }
}
