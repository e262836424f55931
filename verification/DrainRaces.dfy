/** Runs in which chosen workers of one drain act and everybody else stays where it is: how a worker
    serves one item after the other, and a run of every launched drain that completes. */
module DrainRaces {
  import opened Basics
  import opened Delivery
  import opened Drain
  import opened DrainDeliveries
  import opened DrainEffects
  import opened DrainSystem
  import A = Admission
  import D = DrainReleases
  import G = GeminiSlots
  import R = AdmissionRuns

  function Put(start: System, role: Role, p: Pool, shared: Shared): System {
    if role.Preflight? then System(p, start.paid, shared) else System(start.preflight, p, shared)
  }

  /** Some run brings the drain and the stores here and leaves the other drain as it was. */
  ghost predicate Can(expireEvery: nat, start: System, role: Role, p: Pool, shared: Shared) {
    exists events :: Reaches(expireEvery, start, events, Put(start, role, p, shared))
  }

  lemma {:induction false} Extend(expireEvery: nat, s: System, events: seq<Event>, t: System, e: Event)
    requires Reaches(expireEvery, s, events, t) && Enabled(t, e)
    ensures Reaches(expireEvery, s, events + [e], Advance(expireEvery, t, e))
    decreases events
  {
    if events == [] {
      assert ([e])[1..] == [];
    } else {
      assert (events + [e])[1..] == events[1..] + [e];
      Extend(expireEvery, Advance(expireEvery, s, events[0]), events[1..], t, e);
    }
  }

  lemma Turn(expireEvery: nat, start: System, role: Role, p: Pool, shared: Shared, w: nat, p': Pool, shared': Shared)
    requires Can(expireEvery, start, role, p, shared) && CanStep(p, w)
    requires Step(expireEvery, p, w, shared, TOKEN) == (p', shared')
    ensures Can(expireEvery, start, role, p', shared')
  {
    var here := Put(start, role, p, shared);
    var events :| Reaches(expireEvery, start, events, here);
    Extend(expireEvery, start, events, here, Work(role, w, TOKEN));
    assert Advance(expireEvery, here, Work(role, w, TOKEN)) == Put(start, role, p', shared');
  }

  // ---- One worker ----

  ghost predicate NoneParked(ws: seq<Worker>) { forall v :: 0 <= v < |ws| ==> !ws[v].Parked? }

  /** One worker and one entry have changed, and items may have been queued. */
  ghost predicate Moved(p: Pool, p': Pool, w: nat, x: Worker, id: Id, e: Entry, more: seq<Item>) {
    && p'.queue == p.queue + more && p'.cursor == p.cursor && p'.taken == p.taken
    && w < |p.workers| && p'.workers == p.workers[w := x]
    && EntryOf(p', id) == e && (forall other :: other != id ==> EntryOf(p', other) == EntryOf(p, other))
  }

  lemma Takes(expireEvery: nat, start: System, role: Role, p: Pool, shared: Shared, w: nat) returns (p': Pool)
    requires Can(expireEvery, start, role, p, shared)
    requires w < |p.workers| && p.workers[w].Idle? && p.cursor < |p.queue|
    ensures Can(expireEvery, start, role, p', shared)
    ensures p' == p.(cursor := p.cursor + 1, active := p.active + 1, taken := p.taken + [p.queue[p.cursor]],
                     workers := p.workers[w := Busy(p.queue[p.cursor], Fresh)])
  {
    p' := TakeNext(p, w);
    Turn(expireEvery, start, role, p, shared, w, p', shared);
  }

  lemma Progresses(expireEvery: nat, start: System, role: Role, p: Pool, shared: Shared, w: nat, item: Item,
                   stage: Stage, o: Outcome) returns (p': Pool)
    requires Can(expireEvery, start, role, p, shared)
    requires w < |p.workers| && p.workers[w] == Busy(item, stage) && !stage.Leaving?
    requires o == Resume(expireEvery, item, EntryOf(p, item.id), stage, shared, TOKEN)
    ensures Can(expireEvery, start, role, p', o.shared)
    ensures Moved(p, p', w, After(item, o.next), item.id, o.entry, if o.next.Retry? then [o.next.item] else [])
  {
    p' := Progress(p, w, o);
    Turn(expireEvery, start, role, p, shared, w, p', o.shared);
  }

  lemma Resumes(expireEvery: nat, start: System, role: Role, p: Pool, w: nat, item: Item, a: Point, b: Point)
    returns (p': Pool)
    requires Can(expireEvery, start, role, p, a.shared)
    requires w < |p.workers| && p.workers[w] == Busy(item, a.stage) && a.entry == EntryOf(p, item.id)
    requires Onward(expireEvery, item)(a) == Some(b)
    ensures Can(expireEvery, start, role, p', b.shared)
    ensures Moved(p, p', w, Busy(item, b.stage), item.id, b.entry, [])
  {
    var o := Resume(expireEvery, item, a.entry, a.stage, a.shared, TOKEN);
    p' := Progresses(expireEvery, start, role, p, a.shared, w, item, a.stage, o);
  }

  /** A worker follows a way of its delivery. */
  lemma {:induction false} FollowTrace(expireEvery: nat, start: System, role: Role, p: Pool, w: nat, item: Item,
                                       a: Point, b: Point, trace: seq<Point>) returns (p': Pool)
    requires Can(expireEvery, start, role, p, a.shared)
    requires w < |p.workers| && p.workers[w] == Busy(item, a.stage) && a.entry == EntryOf(p, item.id)
    requires Trace(Onward(expireEvery, item), a, b, trace)
    ensures Can(expireEvery, start, role, p', b.shared)
    ensures Moved(p, p', w, Busy(item, b.stage), item.id, b.entry, [])
    decreases |trace|
  {
    if |trace| == 1 {
      p' := p;
    } else {
      TraceRest(Onward(expireEvery, item), a, b, trace);
      var q := Resumes(expireEvery, start, role, p, w, item, a, trace[1]);
      p' := FollowTrace(expireEvery, start, role, q, w, item, trace[1], b, trace[1..]);
    }
  }

  lemma Follow(expireEvery: nat, start: System, role: Role, p: Pool, w: nat, item: Item, a: Point, b: Point)
    returns (p': Pool)
    requires Can(expireEvery, start, role, p, a.shared)
    requires w < |p.workers| && p.workers[w] == Busy(item, a.stage) && a.entry == EntryOf(p, item.id)
    requires Path(expireEvery, item, a, b)
    ensures Can(expireEvery, start, role, p', b.shared)
    ensures Moved(p, p', w, Busy(item, b.stage), item.id, b.entry, [])
  {
    var trace :| Trace(Onward(expireEvery, item), a, b, trace);
    p' := FollowTrace(expireEvery, start, role, p, w, item, a, b, trace);
  }

  lemma Leaves(expireEvery: nat, start: System, role: Role, p: Pool, shared: Shared, w: nat, item: Item)
    returns (p': Pool)
    requires Can(expireEvery, start, role, p, shared) && NoneParked(p.workers)
    requires w < |p.workers| && p.workers[w] == Busy(item, Leaving(false))
    ensures Can(expireEvery, start, role, p', shared)
    ensures p' == p.(active := p.active - 1, workers := p.workers[w := Idle])
  {
    assert Woken(p.workers[w := Idle]) == p.workers[w := Idle];
    p' := Leave(p, w, false);
    Turn(expireEvery, start, role, p, shared, w, p', shared);
  }

  /** It ends its delivery, perhaps with a retry, and is idle again. */
  lemma Ends(expireEvery: nat, start: System, role: Role, p: Pool, shared: Shared, w: nat, item: Item,
             stage: Stage, o: Outcome) returns (p': Pool)
    requires Can(expireEvery, start, role, p, shared) && NoneParked(p.workers)
    requires w < |p.workers| && p.workers[w] == Busy(item, stage) && !stage.Leaving?
    requires o == Resume(expireEvery, item, EntryOf(p, item.id), stage, shared, TOKEN)
    requires o.next.Finish? || o.next.Retry?
    ensures Can(expireEvery, start, role, p', o.shared)
    ensures Moved(p, p', w, Idle, item.id, o.entry, if o.next.Retry? then [o.next.item] else [])
  {
    var q := Progresses(expireEvery, start, role, p, shared, w, item, stage, o);
    p' := Leaves(expireEvery, start, role, q, o.shared, w, item);
  }

  // ---- Between deliveries ----

  /** The admission identities of an id. */
  predicate Owned(k: A.Key, id: Id) {
    k == ApifyInput(id).key || (k.provider.Gemini? && k.request == Uuid(2, id.ordinal))
  }

  /** Only leases of the id have changed, and nothing was denied. */
  ghost predicate Apart(s: A.State, s': A.State, id: Id) {
    && s'.now == s.now && s'.pendingTotal == s.pendingTotal
    && forall k :: !Owned(k, id) ==>
         (k in s.leases <==> k in s'.leases) && (k in s.leases ==> s'.leases[k] == s.leases[k])
  }

  ghost predicate Quiet(s: A.State, id: Id) {
    forall k :: k in s.leases && Owned(k, id) ==> s.leases[k].status.Released?
  }

  /** No delivery of the id has got through its Apify stage. */
  ghost predicate Unstarted(e: Entry, s: A.State, id: Id) {
    && !e.terminal && e.provider.None? && e.gemini.None? && Grantable(s, ApifyInput(id).key)
    && e.effects == 0 && e.apifyStarts == 0
    && (forall k :: k in s.leases && k.provider.Gemini? ==> k.request != Uuid(2, id.ordinal))
  }

  /** Every admission of the id has ended for good, its Apify admission and, if it is paid, a Gemini one
      among them. */
  ghost predicate Concluded(s: A.State, id: Id) {
    && R.ReleasedTerminal(s, ApifyInput(id).key) && (id.role.Paid? ==> D.GeminiOver(s, id))
    && forall k :: k in s.leases && Owned(k, id) ==> s.leases[k].status == A.Released(A.Terminal)
  }

  ghost predicate Open(e: Entry, s: A.State, id: Id) {
    Quiet(s, id) && if e.terminal then Concluded(s, id) else Unstarted(e, s, id)
  }

  function Slotted(held: Option<Id>): Option<G.Identity> {
    if held.Some? then Some(GeminiIdentity(held.value)) else None
  }

  /** It is a first delivery, or its id took the expiry path or cannot take it. */
  predicate FirstOrFree(expireEvery: nat, p: Pool, item: Item) {
    item.attempt == 0 || EntryOf(p, item.id).expired || !Eligible(expireEvery, item.id)
  }

  /** What is queued belongs to the role, and an id that is queued again need not expire. */
  ghost predicate Ordered(expireEvery: nat, role: Role, p: Pool) {
    && p.cursor <= |p.queue| && p.taken == p.queue[..p.cursor] && NoneParked(p.workers)
    && forall i :: p.cursor <= i < |p.queue| ==>
         p.queue[i].id.role == role && FirstOrFree(expireEvery, p, p.queue[i])
  }

  /** Nothing is under way but, perhaps, deliveries of one id. */
  ghost predicate Calm(expireEvery: nat, role: Role, p: Pool, shared: Shared, held: Option<Id>) {
    && Ordered(expireEvery, role, p) && (held.Some? ==> held.value.role == role)
    && (forall id: Id :: id.role == role && Some(id) != held ==> Open(EntryOf(p, id), shared.admission, id))
    && FreeBut(shared.slots, Slotted(held)) && |ActiveKeys(shared.admission)| <= 2
  }

  /** The stores as one delivery leaves them: nothing of other ids is touched, nothing of its own held. */
  ghost predicate Restored(shared: Shared, shared': Shared, id: Id) {
    && Apart(shared.admission, shared'.admission, id) && Quiet(shared'.admission, id)
    && ActiveKeys(shared'.admission) == ActiveKeys(shared.admission)
    && SlotsApart(shared.slots, shared'.slots, GeminiIdentity(id)) && G.Valid(shared'.slots)
    && forall i :: 0 <= i < |shared'.slots| && shared.slots[i].identity.None? ==> shared'.slots[i].identity.None?
  }

  ghost predicate Served(p: Pool, p': Pool, x: Item, e: Entry, more: seq<Item>) {
    && p'.queue == p.queue + more && p'.cursor == p.cursor + 1 && p'.taken == p.taken + [x]
    && p'.workers == p.workers
    && EntryOf(p', x.id) == e && (forall other :: other != x.id ==> EntryOf(p', other) == EntryOf(p, other))
  }

  lemma ApartKeeps(s: A.State, s': A.State, id: Id, e: Entry, other: Id)
    requires Apart(s, s', id) && other != id && other.role == id.role && Open(e, s, other)
    ensures Open(e, s', other)
  {
    forall k | Owned(k, other) ensures !Owned(k, id) {}
    if D.GeminiOver(s, other) {
      var k :| k in s.leases && D.GeminiKey(k, other) && s.leases[k].status == A.Released(A.Terminal);
      assert Owned(k, other) && k in s'.leases;
    }
  }

  lemma StaysOrdered(expireEvery: nat, role: Role, p: Pool, p': Pool, x: Item, e: Entry, more: seq<Item>)
    requires Ordered(expireEvery, role, p) && p.cursor < |p.queue| && p.queue[p.cursor] == x && x.id.role == role
    requires Served(p, p', x, e, more) && (EntryOf(p, x.id).expired ==> e.expired)
    requires more == [] || (more == [x.(attempt := 1)] && e.expired)
    ensures Ordered(expireEvery, role, p')
  {
    assert p'.taken == p'.queue[..p'.cursor];
    forall i | p'.cursor <= i < |p'.queue|
      ensures p'.queue[i].id.role == role && FirstOrFree(expireEvery, p', p'.queue[i])
    {
      if i < |p.queue| { assert p'.queue[i] == p.queue[i]; }
    }
  }

  lemma StaysFree(shared: Shared, shared': Shared, held: Option<Id>, id: Id)
    requires FreeBut(shared.slots, Slotted(held)) && Restored(shared, shared', id) && Some(id) != held
    requires held.Some? ==> held.value.role == id.role
    ensures FreeBut(shared'.slots, Slotted(held))
  {
    var t, t' := shared.slots, shared'.slots;
    forall i | 0 <= i < |t'| && t'[i].identity.Some? ensures t'[i].identity == Slotted(held) {
      assert t[i].identity == Slotted(held) != Some(GeminiIdentity(id));
      assert t'[i] == t[i];
    }
  }

  lemma StaysCalm(expireEvery: nat, role: Role, p: Pool, shared: Shared, p': Pool, shared': Shared,
                  held: Option<Id>, x: Item, e: Entry, more: seq<Item>)
    requires Calm(expireEvery, role, p, shared, held)
    requires p.cursor < |p.queue| && p.queue[p.cursor] == x && x.id.role == role
    requires Served(p, p', x, e, more) && Restored(shared, shared', x.id) && Some(x.id) != held
    requires EntryOf(p, x.id).expired ==> e.expired
    requires more == [] || (more == [x.(attempt := 1)] && e.expired)
    requires if e.terminal then Concluded(shared'.admission, x.id) else Unstarted(e, shared'.admission, x.id)
    ensures Calm(expireEvery, role, p', shared', held)
  {
    StaysOrdered(expireEvery, role, p, p', x, e, more);
    StaysFree(shared, shared', held, x.id);
    forall id: Id | id.role == role && Some(id) != held ensures Open(EntryOf(p', id), shared'.admission, id) {
      if id != x.id {
        ApartKeeps(shared.admission, shared'.admission, x.id, EntryOf(p, id), id);
      }
    }
  }

  // ---- Serving one item ----

  lemma OnlyOwn(s: A.State, s': A.State, id: Id, key: A.Key)
    requires Elsewhere(s, s', key) && Owned(key, id)
    ensures Apart(s, s', id)
  {}

  /** Undisturbed, the whole Apify stage of a delivery. */
  lemma ThroughApify(expireEvery: nat, item: Item, e: Entry, shared: Shared) returns (s': A.State)
    requires Unstarted(e, shared.admission, item.id) && !ShouldExpire(expireEvery, item, e)
    requires |ActiveKeys(shared.admission)| <= 2
    ensures Path(expireEvery, item, Point(e, Fresh, shared),
                 Point(Called(item.id, e.(apifyStarts := e.apifyStarts + 1)), Returned, With(shared, s')))
    ensures R.ReleasedTerminal(s', ApifyInput(item.id).key) && Elsewhere(shared.admission, s', ApifyInput(item.id).key)
    ensures ActiveKeys(s') == ActiveKeys(shared.admission)
  {
    var key := ApifyInput(item.id).key;
    var s1, lease := ToApify(expireEvery, item, e, shared);
    var running := Started(e);
    s' := FromApify(expireEvery, item, running, lease, With(shared, s1));
    assert key !in ActiveKeys(shared.admission);
    assert Called(item.id, running) == Called(item.id, e.(apifyStarts := e.apifyStarts + 1));
    assert With(With(shared, s1), s') == With(shared, s');
    Joined(expireEvery, item, Point(e, Fresh, shared), Point(running, CallingApify(lease), With(shared, s1)),
           Point(Called(item.id, e.(apifyStarts := e.apifyStarts + 1)), Returned, With(shared, s')));
  }

  /** Undisturbed, the whole expiry path. */
  lemma ThroughRejection(expireEvery: nat, item: Item, e: Entry, shared: Shared) returns (s': A.State)
    requires Unstarted(e, shared.admission, item.id) && ShouldExpire(expireEvery, item, e)
    requires |ActiveKeys(shared.admission)| <= 2
    ensures Path(expireEvery, item, Point(e, Fresh, shared),
                 Point(e.(expired := true), Settled(Goal.Reject), With(shared, s')))
    ensures A.Regrantable(s', ApifyInput(item.id).key) && Elsewhere(shared.admission, s', ApifyInput(item.id).key)
    ensures ActiveKeys(s') == ActiveKeys(shared.admission)
  {
    var key := ApifyInput(item.id).key;
    var s1, lease := ToAdmission(expireEvery, item, e, true, shared);
    s' := ToRejection(expireEvery, item, e.(expired := true), lease, With(shared, s1));
    assert key !in ActiveKeys(shared.admission);
    assert Erased(e.(expired := true)) == e.(expired := true);
    assert With(With(shared, s1), s') == With(shared, s');
    Joined(expireEvery, item, Point(e, Fresh, shared),
           Point(e.(expired := true), Admitted(lease, None, true), With(shared, s1)),
           Point(e.(expired := true), Settled(Goal.Reject), With(shared, s')));
  }

  /** Undisturbed, the whole Gemini stage. */
  lemma ThroughGemini(expireEvery: nat, item: Item, e: Entry, shared: Shared, others: Option<G.Identity>)
    returns (shared': Shared)
    requires item.id.role.Paid? && e.provider == Some(Succeeded) && e.gemini.None?
    requires FreeBut(shared.slots, others) && others != Some(GeminiIdentity(item.id))
    requires forall k :: k in shared.admission.leases && k.provider.Gemini? ==> k.request != Uuid(2, item.id.ordinal)
    requires |ActiveKeys(shared.admission)| <= 7 && Quiet(shared.admission, item.id)
    requires R.ReleasedTerminal(shared.admission, ApifyInput(item.id).key)
    ensures Path(expireEvery, item, Point(e, Returned, shared), Point(Generated(e), GeminiDone, shared'))
    ensures Restored(shared, shared', item.id) && Concluded(shared'.admission, item.id)
  {
    var given, slot, lease := ToGemini(expireEvery, item, e, shared, others);
    shared' := FromGemini(expireEvery, item, Generated(e), slot, lease, given);
    Joined(expireEvery, item, Point(e, Returned, shared), Point(Generated(e), GeminiReleasing(slot, lease), given),
           Point(Generated(e), GeminiDone, shared'));
    GeminiRestores(item.id, shared, given, shared', slot);
  }

  lemma GeminiRestores(id: Id, shared: Shared, given: Shared, shared': Shared, slot: SlotLease)
    requires id.role.Paid? && Quiet(shared.admission, id) && 1 <= slot.slot <= |given.slots| && G.Valid(given.slots)
    requires forall k :: k in shared.admission.leases && k.provider.Gemini? ==> k.request != Uuid(2, id.ordinal)
    requires Elsewhere(shared.admission, given.admission, GeminiInput(id, slot).key)
    requires Elsewhere(given.admission, shared'.admission, GeminiInput(id, slot).key)
    requires R.ReleasedTerminal(shared'.admission, GeminiInput(id, slot).key)
    requires ActiveKeys(given.admission) == ActiveKeys(shared.admission) + {GeminiInput(id, slot).key}
    requires ActiveKeys(shared'.admission) == ActiveKeys(given.admission) - {GeminiInput(id, slot).key}
    requires SlotsApart(shared.slots, given.slots, GeminiIdentity(id))
    requires HasSlot(given.slots, slot, GeminiIdentity(id))
    requires forall i :: 0 <= i < |given.slots| && i != slot.slot - 1 ==> given.slots[i] == shared.slots[i]
    requires shared'.slots == given.slots[slot.slot - 1 := G.Slot(slot.fence, None, None)]
    requires R.ReleasedTerminal(shared.admission, ApifyInput(id).key)
    ensures Restored(shared, shared', id) && Concluded(shared'.admission, id)
  {
    var key := GeminiInput(id, slot).key;
    OnlyOwn(shared.admission, shared'.admission, id, GeminiInput(id, slot).key);
    assert key !in ActiveKeys(shared.admission);
    assert ActiveKeys(shared'.admission) == ActiveKeys(shared.admission);
  }

  lemma ApifyRestores(id: Id, shared: Shared, s': A.State)
    requires Quiet(shared.admission, id) && G.Valid(shared.slots)
    requires Elsewhere(shared.admission, s', ApifyInput(id).key) && R.ReleasedTerminal(s', ApifyInput(id).key)
    requires ActiveKeys(s') == ActiveKeys(shared.admission)
    ensures Restored(shared, With(shared, s'), id)
    ensures id.role.Preflight? && D.NoGemini(shared.admission, id) ==> Concluded(s', id)
  {
    OnlyOwn(shared.admission, s', id, ApifyInput(id).key);
  }

  lemma RestoredOn(shared: Shared, shared': Shared, shared'': Shared, id: Id)
    requires Restored(shared, shared', id) && Restored(shared', shared'', id)
    ensures Restored(shared, shared'', id)
  {}

  /** The item is taken, followed to its last stage and ended there. */
  lemma Serves(expireEvery: nat, start: System, role: Role, p: Pool, shared: Shared, w: nat, x: Item, b: Point,
               o: Outcome) returns (p': Pool)
    requires Can(expireEvery, start, role, p, shared) && NoneParked(p.workers)
    requires w < |p.workers| && p.workers[w].Idle? && p.cursor < |p.queue| && p.queue[p.cursor] == x
    requires Path(expireEvery, x, Point(EntryOf(p, x.id), Fresh, shared), b)
    requires o == Resume(expireEvery, x, b.entry, b.stage, b.shared, TOKEN) && !b.stage.Leaving?
    requires o.next.Finish? || o.next.Retry?
    ensures Can(expireEvery, start, role, p', o.shared)
    ensures Served(p, p', x, o.entry, if o.next.Retry? then [o.next.item] else [])
  {
    var q := Takes(expireEvery, start, role, p, shared, w);
    q := Follow(expireEvery, start, role, q, w, x, Point(EntryOf(p, x.id), Fresh, shared), b);
    p' := Ends(expireEvery, start, role, q, b.shared, w, x, b.stage, o);
    assert p'.workers == p.workers;
  }

  lemma LastOfRejected(expireEvery: nat, item: Item, e: Entry, shared: Shared)
    ensures Resume(expireEvery, item, e, Settled(Goal.Reject), shared, TOKEN)
         == Outcome(e, shared, Retry(item.(attempt := 1)))
  {}

  lemma LastOfPaid(expireEvery: nat, item: Item, e: Entry, shared: Shared)
    requires item.id.role.Paid?
    ensures Resume(expireEvery, item, e, GeminiDone, shared, TOKEN) == Outcome(Terminalized(e), shared, Finish)
    ensures e.provider == Some(Succeeded) && e.gemini == Some(Succeeded) ==>
      Resume(expireEvery, item, e, Returned, shared, TOKEN) == Outcome(Terminalized(e), shared, Finish)
  {}

  /** What serving an item undisturbed does to its entry, and whether it is queued again. */
  predicate ServedEntry(expireEvery: nat, x: Item, e: Entry, e': Entry, more: seq<Item>) {
    if !e.terminal && ShouldExpire(expireEvery, x, e) then e' == e.(expired := true) && more == [x.(attempt := 1)]
    else e'.terminal && (e.expired ==> e'.expired) && more == []
  }

  /** A delivery outside the expiry path reaches the end of its Gemini stage with the stores restored. */
  lemma ThroughBoth(expireEvery: nat, x: Item, e: Entry, shared: Shared, others: Option<G.Identity>)
    returns (e': Entry, shared': Shared)
    requires x.id.role.Paid? && Unstarted(e, shared.admission, x.id) && Quiet(shared.admission, x.id)
    requires !ShouldExpire(expireEvery, x, e)
    requires FreeBut(shared.slots, others) && others != Some(GeminiIdentity(x.id))
    requires |ActiveKeys(shared.admission)| <= 2
    ensures Path(expireEvery, x, Point(e, Fresh, shared), Point(e', GeminiDone, shared'))
    ensures e'.expired == e.expired && (e'.effects == 0 || e'.terminal) && Restored(shared, shared', x.id)
    ensures Concluded(shared'.admission, x.id)
  {
    var s' := ThroughApify(expireEvery, x, e, shared);
    var called, after := Called(x.id, e.(apifyStarts := e.apifyStarts + 1)), With(shared, s');
    ApifyRestores(x.id, shared, s');
    e' := Generated(called);
    shared' := ThroughGemini(expireEvery, x, called, after, others);
    RestoredOn(shared, after, shared', x.id);
    Joined(expireEvery, x, Point(e, Fresh, shared), Point(called, Returned, after), Point(e', GeminiDone, shared'));
  }

  /** Serving is possible: from a calm state the worker handles the item at the cursor and is idle again,
      with the stores restored. */
  ghost predicate Serving(expireEvery: nat, start: System, role: Role, p: Pool, shared: Shared, x: Item,
                          p': Pool, shared': Shared, e: Entry, more: seq<Item>) {
    && Can(expireEvery, start, role, p', shared') && Served(p, p', x, e, more) && Restored(shared, shared', x.id)
    && ServedEntry(expireEvery, x, EntryOf(p, x.id), e, more)
    && if e.terminal then Concluded(shared'.admission, x.id) else Unstarted(e, shared'.admission, x.id)
  }

  ghost predicate AtHand(expireEvery: nat, start: System, role: Role, p: Pool, shared: Shared, w: nat, x: Item) {
    && Can(expireEvery, start, role, p, shared) && NoneParked(p.workers)
    && w < |p.workers| && p.workers[w].Idle? && p.cursor < |p.queue| && p.queue[p.cursor] == x
    && Open(EntryOf(p, x.id), shared.admission, x.id)
    && |ActiveKeys(shared.admission)| <= 2 && G.Valid(shared.slots)
  }

  lemma ServeTerminal(expireEvery: nat, start: System, role: Role, p: Pool, shared: Shared, w: nat, x: Item)
    returns (p': Pool)
    requires AtHand(expireEvery, start, role, p, shared, w, x) && EntryOf(p, x.id).terminal
    ensures Serving(expireEvery, start, role, p, shared, x, p', shared, EntryOf(p, x.id), [])
  {
    var e := EntryOf(p, x.id);
    Stays(expireEvery, x, Point(e, Fresh, shared));
    p' := Serves(expireEvery, start, role, p, shared, w, x, Point(e, Fresh, shared), Outcome(e, shared, Finish));
  }

  lemma ServeExpiring(expireEvery: nat, start: System, role: Role, p: Pool, shared: Shared, w: nat, x: Item)
    returns (p': Pool, shared': Shared)
    requires AtHand(expireEvery, start, role, p, shared, w, x)
    requires !EntryOf(p, x.id).terminal && ShouldExpire(expireEvery, x, EntryOf(p, x.id))
    ensures Serving(expireEvery, start, role, p, shared, x, p', shared', EntryOf(p, x.id).(expired := true),
                    [x.(attempt := 1)])
  {
    var e := EntryOf(p, x.id);
    var s' := ThroughRejection(expireEvery, x, e, shared);
    var expired := e.(expired := true);
    shared' := With(shared, s');
    OnlyOwn(shared.admission, s', x.id, ApifyInput(x.id).key);
    LastOfRejected(expireEvery, x, expired, shared');
    p' := Serves(expireEvery, start, role, p, shared, w, x, Point(expired, Settled(Goal.Reject), shared'),
                 Outcome(expired, shared', Retry(x.(attempt := 1))));
  }

  lemma ServePreflight(expireEvery: nat, start: System, role: Role, p: Pool, shared: Shared, w: nat, x: Item)
    returns (p': Pool, shared': Shared, e: Entry)
    requires AtHand(expireEvery, start, role, p, shared, w, x) && x.id.role.Preflight?
    requires !EntryOf(p, x.id).terminal && !ShouldExpire(expireEvery, x, EntryOf(p, x.id))
    ensures Serving(expireEvery, start, role, p, shared, x, p', shared', e, [])
  {
    var before := EntryOf(p, x.id);
    var s' := ThroughApify(expireEvery, x, before, shared);
    e, shared' := Called(x.id, before.(apifyStarts := before.apifyStarts + 1)), With(shared, s');
    ApifyRestores(x.id, shared, s');
    p' := Serves(expireEvery, start, role, p, shared, w, x, Point(e, Returned, shared'), Outcome(e, shared', Finish));
  }

  lemma ServePaid(expireEvery: nat, start: System, role: Role, p: Pool, shared: Shared, w: nat, x: Item,
                  others: Option<G.Identity>) returns (p': Pool, shared': Shared, e: Entry)
    requires AtHand(expireEvery, start, role, p, shared, w, x) && x.id.role.Paid?
    requires !EntryOf(p, x.id).terminal && !ShouldExpire(expireEvery, x, EntryOf(p, x.id))
    requires FreeBut(shared.slots, others) && others != Some(GeminiIdentity(x.id))
    ensures Serving(expireEvery, start, role, p, shared, x, p', shared', e, [])
  {
    var done;
    done, shared' := ThroughBoth(expireEvery, x, EntryOf(p, x.id), shared, others);
    e := Terminalized(done);
    LastOfPaid(expireEvery, x, done, shared');
    p' := Serves(expireEvery, start, role, p, shared, w, x, Point(done, GeminiDone, shared'),
                 Outcome(e, shared', Finish));
  }

  lemma Serve(expireEvery: nat, start: System, role: Role, p: Pool, shared: Shared, w: nat, held: Option<Id>)
    returns (p': Pool, shared': Shared, e: Entry, more: seq<Item>)
    requires Can(expireEvery, start, role, p, shared) && Calm(expireEvery, role, p, shared, held)
    requires w < |p.workers| && p.workers[w].Idle? && p.cursor < |p.queue| && Some(p.queue[p.cursor].id) != held
    ensures Serving(expireEvery, start, role, p, shared, p.queue[p.cursor], p', shared', e, more)
    ensures Calm(expireEvery, role, p', shared', held)
  {
    var x := p.queue[p.cursor];
    var before := EntryOf(p, x.id);
    e, shared', more := before, shared, [];
    if before.terminal {
      p' := ServeTerminal(expireEvery, start, role, p, shared, w, x);
    } else if ShouldExpire(expireEvery, x, before) {
      p', shared' := ServeExpiring(expireEvery, start, role, p, shared, w, x);
      e, more := before.(expired := true), [x.(attempt := 1)];
    } else if x.id.role.Preflight? {
      p', shared', e := ServePreflight(expireEvery, start, role, p, shared, w, x);
    } else {
      p', shared', e := ServePaid(expireEvery, start, role, p, shared, w, x, Slotted(held));
    }
    StaysCalm(expireEvery, role, p, shared, p', shared', held, x, e, more);
  }

  lemma Stays(expireEvery: nat, item: Item, a: Point)
    ensures Path(expireEvery, item, a, a)
  {
    NoStep(Onward(expireEvery, item), a);
  }

  // ---- Fetching the next delivery of one id ----

  /** What concerns the id in the stores has not changed. */
  ghost predicate Untouched(shared: Shared, shared': Shared, id: Id) {
    && shared'.admission.now == shared.admission.now
    && ActiveKeys(shared'.admission) == ActiveKeys(shared.admission)
    && (forall k :: Owned(k, id) ==>
          (k in shared.admission.leases <==> k in shared'.admission.leases)
          && (k in shared.admission.leases ==> shared'.admission.leases[k] == shared.admission.leases[k]))
    && |shared'.slots| == |shared.slots|
    && (forall i :: 0 <= i < |shared.slots| && shared.slots[i].identity == Some(GeminiIdentity(id)) ==>
          shared'.slots[i] == shared.slots[i])
  }

  lemma OthersLeave(shared: Shared, shared': Shared, x: Id, id: Id)
    requires Restored(shared, shared', x) && x != id && x.role == id.role
    ensures Untouched(shared, shared', id)
  {
    forall k | Owned(k, id) ensures !Owned(k, x) {}
  }

  lemma CalmTake(expireEvery: nat, role: Role, p: Pool, p': Pool, shared: Shared, held: Option<Id>, w: nat, id: Id)
    requires Calm(expireEvery, role, p, shared, held) && held in {None, Some(id)} && id.role == role
    requires p.cursor < |p.queue| && w < |p.workers|
    requires p' == p.(cursor := p.cursor + 1, active := p.active + 1, taken := p.taken + [p.queue[p.cursor]],
                      workers := p.workers[w := Busy(p.queue[p.cursor], Fresh)])
    ensures Calm(expireEvery, role, p', shared, Some(id))
  {
    assert p'.taken == p'.queue[..p'.cursor];
  }

  lemma ServedOther(p: Pool, p': Pool, x: Item, e: Entry, more: seq<Item>, id: Id)
    requires Served(p, p', x, e, more) && x.id != id && (more == [] || more == [x.(attempt := 1)])
    ensures Pending(p', id) == Pending(p, id)
  {
    CopiesSnoc(p.taken, x, id);
    if more != [] { CopiesSnoc(p.queue, x.(attempt := 1), id); } else { assert p'.queue == p.queue; }
  }

  lemma Skip(expireEvery: nat, start: System, role: Role, p: Pool, shared: Shared, w: nat, held: Option<Id>, id: Id)
    returns (p': Pool, shared': Shared)
    requires Can(expireEvery, start, role, p, shared) && Calm(expireEvery, role, p, shared, held)
    requires held in {None, Some(id)} && id.role == role
    requires w < |p.workers| && p.workers[w].Idle? && p.cursor < |p.queue| && p.queue[p.cursor].id != id
    ensures Can(expireEvery, start, role, p', shared') && Calm(expireEvery, role, p', shared', held)
    ensures p'.workers == p.workers && p'.cursor == p.cursor + 1 && p.queue <= p'.queue
    ensures EntryOf(p', id) == EntryOf(p, id) && Pending(p', id) == Pending(p, id) && Untouched(shared, shared', id)
  {
    var e, more;
    p', shared', e, more := Serve(expireEvery, start, role, p, shared, w, held);
    ServedOther(p, p', p.queue[p.cursor], e, more, id);
    OthersLeave(shared, shared', p.queue[p.cursor].id, id);
  }

  /** Until its next copy the worker serves whatever comes. */
  lemma {:induction false} FetchAt(expireEvery: nat, start: System, role: Role, p: Pool, shared: Shared, w: nat,
                                   held: Option<Id>, id: Id, j: nat) returns (p': Pool, shared': Shared, item: Item)
    requires Can(expireEvery, start, role, p, shared) && Calm(expireEvery, role, p, shared, held)
    requires held in {None, Some(id)} && id.role == role
    requires w < |p.workers| && p.workers[w].Idle? && p.cursor <= j < |p.queue| && p.queue[j].id == id
    requires forall i :: p.cursor <= i < j ==> p.queue[i].id != id
    ensures Can(expireEvery, start, role, p', shared') && Calm(expireEvery, role, p', shared', Some(id))
    ensures item.id == id && p'.workers == p.workers[w := Busy(item, Fresh)]
    ensures EntryOf(p', id) == EntryOf(p, id) && FirstOrFree(expireEvery, p, item)
    ensures Pending(p', id) == Pending(p, id) - 1 && Untouched(shared, shared', id)
    ensures FreeBut(shared'.slots, Slotted(held))
    decreases j - p.cursor
  {
    if p.cursor == j {
      item, shared' := p.queue[j], shared;
      p' := Takes(expireEvery, start, role, p, shared, w);
      CalmTake(expireEvery, role, p, p', shared, held, w, id);
      CopiesSnoc(p.taken, item, id);
    } else {
      var q, given := Skip(expireEvery, start, role, p, shared, w, held, id);
      p', shared', item := FetchAt(expireEvery, start, role, q, given, w, held, id, j);
    }
  }

  lemma {:induction false} NextCopy(items: seq<Item>, n: nat, id: Id, last: nat) returns (j: nat)
    requires n <= last < |items| && items[last].id == id
    ensures n <= j < |items| && items[j].id == id && forall i :: n <= i < j ==> items[i].id != id
    decreases last - n
  {
    if items[n].id == id { j := n; } else { j := NextCopy(items, n + 1, id, last); }
  }

  lemma Fetch(expireEvery: nat, start: System, role: Role, p: Pool, shared: Shared, w: nat, held: Option<Id>, id: Id)
    returns (p': Pool, shared': Shared, item: Item)
    requires Can(expireEvery, start, role, p, shared) && Calm(expireEvery, role, p, shared, held)
    requires held in {None, Some(id)} && id.role == role
    requires w < |p.workers| && p.workers[w].Idle? && Pending(p, id) >= 1
    ensures Can(expireEvery, start, role, p', shared') && Calm(expireEvery, role, p', shared', Some(id))
    ensures item.id == id && p'.workers == p.workers[w := Busy(item, Fresh)]
    ensures EntryOf(p', id) == EntryOf(p, id) && FirstOrFree(expireEvery, p, item)
    ensures Pending(p', id) == Pending(p, id) - 1 && Untouched(shared, shared', id)
    ensures FreeBut(shared'.slots, Slotted(held))
  {
    TakenWithin(p.queue, p.cursor, id);
    var last :| p.cursor <= last < |p.queue| && p.queue[last].id == id;
    var j := NextCopy(p.queue, p.cursor, id, last);
    p', shared', item := FetchAt(expireEvery, start, role, p, shared, w, held, id, j);
  }

  // ---- Drains as the harness launches them ----

  /** A drain over first deliveries of its own role, with fresh stores; the other drain may be any. */
  ghost predicate Planned(start: System, role: Role) {
    && Begins(start) && A.Init(start.shared.admission) && G.AllFree(start.shared.slots)
    && forall i :: 0 <= i < |PoolOf(start, role).queue| ==>
         PoolOf(start, role).queue[i].id.role == role && PoolOf(start, role).queue[i].attempt == 0
  }

  lemma PlannedIsCalm(expireEvery: nat, start: System, role: Role)
    requires Planned(start, role)
    ensures Can(expireEvery, start, role, PoolOf(start, role), start.shared)
    ensures Calm(expireEvery, role, PoolOf(start, role), start.shared, None) && ActiveKeys(start.shared.admission) == {}
    ensures forall v :: 0 <= v < |PoolOf(start, role).workers| ==> PoolOf(start, role).workers[v].Idle?
    ensures forall id :: EntryOf(PoolOf(start, role), id) == BLANK
    ensures forall id :: Pending(PoolOf(start, role), id) == Copies(PoolOf(start, role).queue, id)
  {
    var p := PoolOf(start, role);
    assert Put(start, role, p, start.shared) == start;
    assert Reaches(expireEvery, start, [], Put(start, role, p, start.shared));
    assert ActiveKeys(start.shared.admission) == {};
  }

  // ---- A run that completes ----

  lemma {:induction false} ServeAll(expireEvery: nat, start: System, role: Role, p: Pool, shared: Shared, n: nat)
    returns (p': Pool, shared': Shared)
    requires Can(expireEvery, start, role, p, shared) && Calm(expireEvery, role, p, shared, None)
    requires |p.workers| >= 1 && p.workers[0].Idle? && n <= |p.queue|
    requires forall i :: n <= i < |p.queue| ==> p.queue[i].attempt == 1
    ensures Can(expireEvery, start, role, p', shared') && p'.workers == p.workers && p'.cursor == |p'.queue|
    ensures Calm(expireEvery, role, p', shared', None)
    ensures shared'.admission.pendingTotal == shared.admission.pendingTotal && p.queue <= p'.queue
    decreases (if p.cursor < n then n - p.cursor else 0) + |p.queue| - p.cursor
  {
    if p.cursor == |p.queue| {
      p', shared' := p, shared;
    } else {
      var q, given, e, more := Serve(expireEvery, start, role, p, shared, 0, None);
      p', shared' := ServeAll(expireEvery, start, role, q, given, n);
    }
  }

  lemma Exits(expireEvery: nat, start: System, role: Role, p: Pool, shared: Shared, w: nat) returns (p': Pool)
    requires Begins(start) && Can(expireEvery, start, role, p, shared) && p.cursor == |p.queue|
    requires w < |p.workers| && p.workers[w].Idle? && forall v :: 0 <= v < |p.workers| ==> !p.workers[v].Busy?
    ensures Can(expireEvery, start, role, p', shared) && p' == p.(workers := p.workers[w := Exited])
  {
    var events :| Reaches(expireEvery, start, events, Put(start, role, p, shared));
    Follows(expireEvery, start, events, Put(start, role, p, shared));
    assert PoolOf(Put(start, role, p, shared), role) == p && BusySet(p.workers) == {};
    p' := TakeNext(p, w);
    Turn(expireEvery, start, role, p, shared, w, p', shared);
  }

  lemma {:induction false} ExitAll(expireEvery: nat, start: System, role: Role, p: Pool, shared: Shared, k: nat)
    returns (p': Pool)
    requires Begins(start) && Can(expireEvery, start, role, p, shared) && p.cursor == |p.queue|
    requires k <= |p.workers|
    requires forall v :: 0 <= v < |p.workers| ==> if v < k then p.workers[v].Exited? else p.workers[v].Idle?
    ensures Can(expireEvery, start, role, p', shared) && AllExited(p') && p' == p.(workers := p'.workers)
    decreases |p.workers| - k
  {
    if k == |p.workers| {
      p' := p;
    } else {
      var q := Exits(expireEvery, start, role, p, shared, k);
      p' := ExitAll(expireEvery, start, role, q, shared, k + 1);
    }
  }

  /** From a calm state the drain can return, and has then concluded every admission of its ids. */
  lemma CalmReturns(expireEvery: nat, start: System, role: Role, p: Pool, shared: Shared, n: nat)
    returns (events: seq<Event>, s: System)
    requires Planned(start, role) && Can(expireEvery, start, role, p, shared)
    requires Calm(expireEvery, role, p, shared, None)
    requires |p.workers| >= 1 && (forall v :: 0 <= v < |p.workers| ==> p.workers[v].Idle?)
    requires n <= |p.queue| && forall i :: n <= i < |p.queue| ==> p.queue[i].attempt == 1
    requires |PoolOf(start, role).workers| >= 1
    ensures Reaches(expireEvery, start, events, s) && AllExited(PoolOf(s, role)) && Drained(PoolOf(s, role))
    ensures Terminal(PoolOf(s, role)) == Accepted(PoolOf(start, role).queue)
    ensures forall id :: id in Accepted(PoolOf(start, role).queue) ==> Concluded(s.shared.admission, id)
    ensures s.shared.admission.pendingTotal == shared.admission.pendingTotal && p.queue <= PoolOf(s, role).queue
  {
    var q, given := ServeAll(expireEvery, start, role, p, shared, n);
    var last := ExitAll(expireEvery, start, role, q, given, 0);
    s := Put(start, role, last, given);
    events :| Reaches(expireEvery, start, events, s);
    NoLostWork(expireEvery, start, events, s, role);
    forall id | id in Accepted(PoolOf(start, role).queue) ensures Concluded(s.shared.admission, id) {
      var i :| 0 <= i < |PoolOf(start, role).queue| && PoolOf(start, role).queue[i].id == id;
      assert id in Terminal(last) && id.role == role;
      assert Open(EntryOf(q, id), given.admission, id);
    }
  }

  /** However many items and workers a drain is launched with, some run of it returns with every accepted
      id terminal and its admissions ended for good; so what is proved of returning drains is never empty. */
  lemma DrainCanReturn(expireEvery: nat, start: System, role: Role) returns (events: seq<Event>, s: System)
    requires Planned(start, role) && |PoolOf(start, role).workers| >= 1
    ensures Reaches(expireEvery, start, events, s) && AllExited(PoolOf(s, role)) && Drained(PoolOf(s, role))
    ensures Terminal(PoolOf(s, role)) == Accepted(PoolOf(start, role).queue)
    ensures forall id :: id in Accepted(PoolOf(start, role).queue) ==> Concluded(s.shared.admission, id)
  {
    PlannedIsCalm(expireEvery, start, role);
    events, s := CalmReturns(expireEvery, start, role, PoolOf(start, role), start.shared, |PoolOf(start, role).queue|);
  }
}
