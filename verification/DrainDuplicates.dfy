/** When exactly no run of a launched drain calls Apify twice for an id, or counts two terminal effects of
    it: from the runs in which two of its deliveries meet, and the bounds of DrainEffects. */
module DrainDuplicates {
  import opened Basics
  import opened Delivery
  import opened Drain
  import opened DrainDeliveries
  import opened DrainEffects
  import opened DrainRaces
  import opened DrainSystem
  import A = Admission

  /** Two deliveries of the id are in play: the worker has one of them, another is queued, and nothing of
      the id has been started. */
  ghost predicate Meets(expireEvery: nat, start: System, p: Pool, shared: Shared, w: nat, item: Item) {
    && Can(expireEvery, start, item.id.role, p, shared) && Calm(expireEvery, item.id.role, p, shared, Some(item.id))
    && ActiveKeys(shared.admission) == {} && Quiet(shared.admission, item.id)
    && Unstarted(EntryOf(p, item.id), shared.admission, item.id) && FreeBut(shared.slots, None)
    && w < |p.workers| && p.workers[w] == Busy(item, Fresh) && Pending(p, item.id) >= 1
    && FirstOrFree(expireEvery, p, item)
  }

  /** A step of the held id's own keeps the rest calm. */
  lemma HoldsCalm(expireEvery: nat, role: Role, p: Pool, shared: Shared, p': Pool, shared': Shared, id: Id,
                  w: nat, x: Worker, e: Entry, more: seq<Item>)
    requires Calm(expireEvery, role, p, shared, Some(id)) && Moved(p, p', w, x, id, e, more) && !x.Parked?
    requires EntryOf(p, id).expired ==> e.expired
    requires more == [] || (more == [Item(id, 1)] && e.expired)
    requires Apart(shared.admission, shared'.admission, id) && |ActiveKeys(shared'.admission)| <= 2
    requires FreeBut(shared'.slots, Some(GeminiIdentity(id)))
    ensures Calm(expireEvery, role, p', shared', Some(id))
  {
    forall i | p'.cursor <= i < |p'.queue|
      ensures p'.queue[i].id.role == role && FirstOrFree(expireEvery, p', p'.queue[i])
    {
      if i < |p.queue| { assert p'.queue[i] == p.queue[i]; }
    }
    forall other: Id | other.role == role && other != id ensures Open(EntryOf(p', other), shared'.admission, other) {
      ApartKeeps(shared.admission, shared'.admission, id, EntryOf(p, other), other);
    }
  }

  lemma PendingMoved(p: Pool, p': Pool, w: nat, x: Worker, id: Id, e: Entry, more: seq<Item>)
    requires Moved(p, p', w, x, id, e, more) && (more == [] || more == [Item(id, 1)])
    ensures Pending(p', id) == Pending(p, id) + |more|
  {
    if more == [] { assert p'.queue == p.queue; } else { CopiesSnoc(p.queue, Item(id, 1), id); }
  }

  // ---- Two terminal effects of a paid id ----

  /** One delivery has made its Gemini call and still holds slot and admission. */
  ghost predicate Generating(p: Pool, shared: Shared, w: nat, item: Item, slot: SlotLease, lease: A.Lease) {
    && w < |p.workers| && p.workers[w] == Busy(item, GeminiReleasing(slot, lease))
    && InTime(shared.admission, GeminiInput(item.id, slot), lease)
    && HasSlot(shared.slots, slot, GeminiIdentity(item.id))
    && var e := EntryOf(p, item.id);
       e.provider == Some(Succeeded) && e.gemini == Some(Succeeded) && e.effects == 0 && !e.terminal
       && e.geminiStarts == 1
  }

  lemma ToGenerating(expireEvery: nat, item: Item, e: Entry, shared: Shared)
    returns (shared': Shared, slot: SlotLease, lease: A.Lease, e': Entry)
    requires item.id.role.Paid? && Unstarted(e, shared.admission, item.id) && Quiet(shared.admission, item.id)
    requires !ShouldExpire(expireEvery, item, e) && FreeBut(shared.slots, None)
    requires ActiveKeys(shared.admission) == {} && e.geminiStarts == 0
    ensures Path(expireEvery, item, Point(e, Fresh, shared), Point(e', GeminiReleasing(slot, lease), shared'))
    ensures InTime(shared'.admission, GeminiInput(item.id, slot), lease)
    ensures HasSlot(shared'.slots, slot, GeminiIdentity(item.id))
    ensures FreeBut(shared'.slots, Some(GeminiIdentity(item.id)))
    ensures Apart(shared.admission, shared'.admission, item.id) && |ActiveKeys(shared'.admission)| <= 1
    ensures e' == Generated(Called(item.id, e.(apifyStarts := e.apifyStarts + 1)))
  {
    var called := Called(item.id, e.(apifyStarts := e.apifyStarts + 1));
    var s' := ThroughApify(expireEvery, item, e, shared);
    shared', slot, lease := ToGemini(expireEvery, item, called, With(shared, s'), None);
    e' := Generated(called);
    OnlyOwn(shared.admission, s', item.id, ApifyInput(item.id).key);
    OnlyOwn(s', shared'.admission, item.id, GeminiInput(item.id, slot).key);
    Joined(expireEvery, item, Point(e, Fresh, shared), Point(called, Returned, With(shared, s')),
           Point(e', GeminiReleasing(slot, lease), shared'));
  }

  /** It gets there while the other copy is still queued. */
  lemma ReachesGenerating(expireEvery: nat, start: System, p: Pool, given: Shared, w: nat, item: Item)
    returns (p': Pool, shared: Shared, slot: SlotLease, lease: A.Lease)
    requires Meets(expireEvery, start, p, given, w, item) && item.id.role.Paid?
    requires !ShouldExpire(expireEvery, item, EntryOf(p, item.id)) && EntryOf(p, item.id).geminiStarts == 0
    ensures Can(expireEvery, start, item.id.role, p', shared)
    ensures Calm(expireEvery, item.id.role, p', shared, Some(item.id))
    ensures Generating(p', shared, w, item, slot, lease) && Pending(p', item.id) == Pending(p, item.id)
    ensures EntryOf(p', item.id).expired == EntryOf(p, item.id).expired
    ensures p'.workers == p.workers[w := Busy(item, GeminiReleasing(slot, lease))]
  {
    var e, e' := EntryOf(p, item.id), BLANK;
    shared, slot, lease, e' := ToGenerating(expireEvery, item, e, given);
    p' := Follow(expireEvery, start, item.id.role, p, w, item, Point(e, Fresh, given),
                 Point(e', GeminiReleasing(slot, lease), shared));
    HoldsCalm(expireEvery, item.id.role, p, given, p', shared, item.id, w, Busy(item, GeminiReleasing(slot, lease)), e',
              []);
    PendingMoved(p, p', w, Busy(item, GeminiReleasing(slot, lease)), item.id, e', []);
  }

  lemma Adopts(expireEvery: nat, item: Item, e: Entry, shared: Shared)
    requires !e.terminal && e.provider == Some(Succeeded) && !ShouldExpire(expireEvery, item, e)
    ensures Path(expireEvery, item, Point(e, Fresh, shared), Point(e, Returned, shared))
  {
    Hop(expireEvery, item, Point(e, Fresh, shared), Point(e, Returned, shared));
  }

  /** Meanwhile another delivery finds both stages done and has the terminal effect. */
  lemma Overtakes(expireEvery: nat, start: System, p: Pool, shared: Shared, v: nat, item: Item) returns (p': Pool)
    requires Can(expireEvery, start, item.id.role, p, shared) && item.id.role.Paid?
    requires v < |p.workers| && p.workers[v] == Busy(item, Fresh)
    requires !ShouldExpire(expireEvery, item, EntryOf(p, item.id)) && !EntryOf(p, item.id).terminal
    requires EntryOf(p, item.id).provider == Some(Succeeded) && EntryOf(p, item.id).gemini == Some(Succeeded)
    ensures Can(expireEvery, start, item.id.role, p', shared)
    ensures Moved(p, p', v, Busy(item, Leaving(false)), item.id, Terminalized(EntryOf(p, item.id)), [])
  {
    var e := EntryOf(p, item.id);
    Adopts(expireEvery, item, e, shared);
    var q := Follow(expireEvery, start, item.id.role, p, v, item, Point(e, Fresh, shared), Point(e, Returned, shared));
    LastOfPaid(expireEvery, item, e, shared);
    p' := Progresses(expireEvery, start, item.id.role, q, shared, v, item, Returned,
                     Outcome(Terminalized(e), shared, Finish));
    assert p'.workers == p.workers[v := Busy(item, Leaving(false))];
  }

  /** The first one then has it too. */
  lemma Completes(expireEvery: nat, start: System, p: Pool, given: Shared, w: nat, item: Item, slot: SlotLease,
                  lease: A.Lease) returns (p': Pool, shared: Shared)
    requires Can(expireEvery, start, item.id.role, p, given) && item.id.role.Paid?
    requires w < |p.workers| && p.workers[w] == Busy(item, GeminiReleasing(slot, lease))
    requires InTime(given.admission, GeminiInput(item.id, slot), lease)
    requires HasSlot(given.slots, slot, GeminiIdentity(item.id))
    ensures Can(expireEvery, start, item.id.role, p', shared)
    ensures EntryOf(p', item.id) == Terminalized(EntryOf(p, item.id))
  {
    var e := EntryOf(p, item.id);
    shared := FromGemini(expireEvery, item, e, slot, lease, given);
    var q := Follow(expireEvery, start, item.id.role, p, w, item, Point(e, GeminiReleasing(slot, lease), given),
                    Point(e, GeminiDone, shared));
    LastOfPaid(expireEvery, item, e, shared);
    p' := Progresses(expireEvery, start, item.id.role, q, shared, w, item, GeminiDone,
                     Outcome(Terminalized(e), shared, Finish));
  }

  /** Of two deliveries of a paid id outside the expiry path both can have a terminal effect, although
      Gemini is called once. */
  lemma PaidTwice(expireEvery: nat, start: System, p: Pool, given: Shared, w: nat, v: nat, item: Item)
    returns (p': Pool, shared: Shared)
    requires Meets(expireEvery, start, p, given, w, item) && item.id.role.Paid?
    requires !Eligible(expireEvery, item.id) || EntryOf(p, item.id).expired
    requires EntryOf(p, item.id).geminiStarts == 0
    requires v < |p.workers| && p.workers[v].Idle?
    ensures Can(expireEvery, start, item.id.role, p', shared)
    ensures EntryOf(p', item.id).effects == 2 && EntryOf(p', item.id).geminiStarts == 1
  {
    var slot, lease, q, after, other;
    p', shared, slot, lease := ReachesGenerating(expireEvery, start, p, given, w, item);
    q, after, other := Fetch(expireEvery, start, item.id.role, p', shared, v, Some(item.id), item.id);
    q := Overtakes(expireEvery, start, q, after, v, other);
    p', shared := Completes(expireEvery, start, q, after, w, item, slot, lease);
  }

  // ---- Two Apify calls of an eligible id ----

  /** Two deliveries of the id have made their Apify call and nothing of it has ended. */
  ghost predicate Calling(p: Pool, w: nat, v: nat, id: Id) {
    && w < |p.workers| && v < |p.workers| && w != v && Calls(p.workers[w], id) && Calls(p.workers[v], id)
    && EntryOf(p, id).apifyStarts == 2 && EntryOf(p, id).effects == 0
  }

  /** The expiring delivery is admitted. */
  lemma ReachesAdmission(expireEvery: nat, start: System, p: Pool, given: Shared, w: nat, item: Item)
    returns (p': Pool, shared: Shared, lease: A.Lease)
    requires Meets(expireEvery, start, p, given, w, item) && ShouldExpire(expireEvery, item, EntryOf(p, item.id))
    ensures Can(expireEvery, start, item.id.role, p', shared)
    ensures Calm(expireEvery, item.id.role, p', shared, Some(item.id))
    ensures Held(shared.admission, ApifyInput(item.id), lease) && Pending(p', item.id) == Pending(p, item.id)
    ensures EntryOf(p', item.id) == EntryOf(p, item.id).(expired := true)
    ensures p'.workers == p.workers[w := Busy(item, Admitted(lease, None, true))]
  {
    var e, s' := EntryOf(p, item.id), given.admission;
    s', lease := ToAdmission(expireEvery, item, e, true, given);
    var stage := Admitted(lease, None, true);
    shared := With(given, s');
    p' := Follow(expireEvery, start, item.id.role, p, w, item, Point(e, Fresh, given),
                 Point(e.(expired := true), stage, shared));
    OnlyOwn(given.admission, s', item.id, ApifyInput(item.id).key);
    HoldsCalm(expireEvery, item.id.role, p, given, p', shared, item.id, w, Busy(item, stage), e.(expired := true), []);
    PendingMoved(p, p', w, Busy(item, stage), item.id, e.(expired := true), []);
  }

  /** Another delivery shares the lease and makes its call. */
  lemma SharesLease(expireEvery: nat, start: System, p: Pool, shared: Shared, v: nat, item: Item, lease: A.Lease)
    returns (p': Pool)
    requires Can(expireEvery, start, item.id.role, p, shared)
    requires Calm(expireEvery, item.id.role, p, shared, Some(item.id))
    requires v < |p.workers| && p.workers[v] == Busy(item, Fresh)
    requires !EntryOf(p, item.id).terminal && EntryOf(p, item.id).provider.None? && EntryOf(p, item.id).expired
    requires Held(shared.admission, ApifyInput(item.id), lease)
    ensures Can(expireEvery, start, item.id.role, p', shared)
    ensures Calm(expireEvery, item.id.role, p', shared, Some(item.id))
    ensures EntryOf(p', item.id) == Started(EntryOf(p, item.id)) && Pending(p', item.id) == Pending(p, item.id)
    ensures p'.workers == p.workers[v := Busy(item, CallingApify(lease))]
  {
    var e, x := EntryOf(p, item.id), Busy(item, CallingApify(lease));
    ToSharedApify(expireEvery, item, e, shared, lease);
    p' := Follow(expireEvery, start, item.id.role, p, v, item, Point(e, Fresh, shared),
                 Point(Started(e), CallingApify(lease), shared));
    HoldsCalm(expireEvery, item.id.role, p, shared, p', shared, item.id, v, x, Started(e), []);
    PendingMoved(p, p', v, x, item.id, Started(e), []);
  }

  /** The expiring delivery erases whatever mark there is, has the lease rejected and queues its retry. */
  lemma Rejects(expireEvery: nat, start: System, p: Pool, given: Shared, w: nat, item: Item, lease: A.Lease)
    returns (p': Pool, shared: Shared)
    requires Can(expireEvery, start, item.id.role, p, given)
    requires Calm(expireEvery, item.id.role, p, given, Some(item.id))
    requires w < |p.workers| && p.workers[w] == Busy(item, Admitted(lease, None, true))
    requires Held(given.admission, ApifyInput(item.id), lease) && EntryOf(p, item.id).expired
    ensures Can(expireEvery, start, item.id.role, p', shared)
    ensures Calm(expireEvery, item.id.role, p', shared, Some(item.id))
    ensures EntryOf(p', item.id) == Erased(EntryOf(p, item.id)) && Pending(p', item.id) == Pending(p, item.id) + 1
    ensures p'.workers == p.workers[w := Idle] && A.Regrantable(shared.admission, ApifyInput(item.id).key)
  {
    var e, s' := EntryOf(p, item.id), given.admission;
    s' := ToRejection(expireEvery, item, e, lease, given);
    shared := With(given, s');
    var q := Follow(expireEvery, start, item.id.role, p, w, item, Point(e, Admitted(lease, None, true), given),
                    Point(Erased(e), Settled(Goal.Reject), shared));
    LastOfRejected(expireEvery, item, Erased(e), shared);
    p' := Ends(expireEvery, start, item.id.role, q, shared, w, item, Settled(Goal.Reject),
               Outcome(Erased(e), shared, Retry(item.(attempt := 1))));
    assert p'.workers == p.workers[w := Idle];
    OnlyOwn(given.admission, s', item.id, ApifyInput(item.id).key);
    HoldsCalm(expireEvery, item.id.role, p, given, p', shared, item.id, w, Idle, Erased(e), [item.(attempt := 1)]);
    PendingMoved(p, p', w, Idle, item.id, Erased(e), [item.(attempt := 1)]);
  }

  /** The next delivery finds no mark and a lease it may have again, and makes a second call. */
  lemma CallsAgain(expireEvery: nat, start: System, p: Pool, given: Shared, w: nat, item: Item)
    returns (p': Pool, shared: Shared, lease: A.Lease)
    requires Can(expireEvery, start, item.id.role, p, given)
    requires Calm(expireEvery, item.id.role, p, given, Some(item.id))
    requires w < |p.workers| && p.workers[w] == Busy(item, Fresh)
    requires !EntryOf(p, item.id).terminal && EntryOf(p, item.id).provider.None? && EntryOf(p, item.id).expired
    requires A.Regrantable(given.admission, ApifyInput(item.id).key)
    ensures Can(expireEvery, start, item.id.role, p', shared)
    ensures EntryOf(p', item.id) == Started(EntryOf(p, item.id))
    ensures p'.workers == p.workers[w := Busy(item, CallingApify(lease))]
  {
    var e, s' := EntryOf(p, item.id), given.admission;
    s', lease := ToApify(expireEvery, item, e, given);
    shared := With(given, s');
    p' := Follow(expireEvery, start, item.id.role, p, w, item, Point(e, Fresh, given),
                 Point(Started(e), CallingApify(lease), shared));
  }

  /** The first delivery is about to erase the mark under which the second has called. */
  lemma Crosses(expireEvery: nat, start: System, p: Pool, given: Shared, w: nat, v: nat, item: Item)
    returns (p': Pool, shared: Shared, lease: A.Lease)
    requires Meets(expireEvery, start, p, given, w, item) && ShouldExpire(expireEvery, item, EntryOf(p, item.id))
    requires w != v && v < |p.workers| && p.workers[v].Idle?
    ensures Can(expireEvery, start, item.id.role, p', shared)
    ensures Calm(expireEvery, item.id.role, p', shared, Some(item.id))
    ensures Held(shared.admission, ApifyInput(item.id), lease) && Pending(p', item.id) >= 0
    ensures |p'.workers| == |p.workers| && p'.workers[w] == Busy(item, Admitted(lease, None, true))
    ensures Calls(p'.workers[v], item.id)
    ensures EntryOf(p', item.id) == Started(EntryOf(p, item.id).(expired := true))
  {
    var q, after, other;
    q, after, lease := ReachesAdmission(expireEvery, start, p, given, w, item);
    p', shared, other := Fetch(expireEvery, start, item.id.role, q, after, v, Some(item.id), item.id);
    p' := SharesLease(expireEvery, start, p', shared, v, other, lease);
  }

  /** Of two deliveries of an eligible id one can erase the other's mark, so that its retry calls again. */
  lemma CalledTwice(expireEvery: nat, start: System, p: Pool, given: Shared, w: nat, v: nat, item: Item)
    returns (p': Pool, shared: Shared)
    requires Meets(expireEvery, start, p, given, w, item) && ShouldExpire(expireEvery, item, EntryOf(p, item.id))
    requires w != v && v < |p.workers| && p.workers[v].Idle?
    ensures Can(expireEvery, start, item.id.role, p', shared) && Calling(p', w, v, item.id)
  {
    var q, after, lease;
    q, after, lease := Crosses(expireEvery, start, p, given, w, v, item);
    p', shared := CallsOnceMore(expireEvery, start, q, after, w, v, item, lease);
  }

  lemma CallsOnceMore(expireEvery: nat, start: System, p: Pool, given: Shared, w: nat, v: nat, item: Item,
                      lease: A.Lease) returns (p': Pool, shared: Shared)
    requires Can(expireEvery, start, item.id.role, p, given)
    requires Calm(expireEvery, item.id.role, p, given, Some(item.id))
    requires Held(given.admission, ApifyInput(item.id), lease) && Pending(p, item.id) >= 0
    requires w < |p.workers| && v < |p.workers| && w != v && Calls(p.workers[v], item.id)
    requires p.workers[w] == Busy(item, Admitted(lease, None, true))
    requires var e := EntryOf(p, item.id);
      e.apifyStarts == 1 && e.effects == 0 && !e.terminal && e.expired && e.provider == Some(Running)
    ensures Can(expireEvery, start, item.id.role, p', shared) && Calling(p', w, v, item.id)
  {
    var q, after, again, ignored;
    q, after := Rejects(expireEvery, start, p, given, w, item, lease);
    q, after, again := Fetch(expireEvery, start, item.id.role, q, after, w, Some(item.id), item.id);
    p', shared, ignored := CallsAgain(expireEvery, start, q, after, w, again);
  }

  /** Each of the two calls of a preflight id counts a terminal effect when it returns. */
  lemma BothReturn(expireEvery: nat, start: System, p: Pool, shared: Shared, w: nat, v: nat, id: Id) returns (p': Pool)
    requires Can(expireEvery, start, id.role, p, shared) && Calling(p, w, v, id) && id.role.Preflight?
    ensures Can(expireEvery, start, id.role, p', shared) && EntryOf(p', id).effects == 2
  {
    var q := Returns(expireEvery, start, p, shared, w, id);
    p' := Returns(expireEvery, start, q, shared, v, id);
  }

  lemma Returns(expireEvery: nat, start: System, p: Pool, shared: Shared, w: nat, id: Id) returns (p': Pool)
    requires Can(expireEvery, start, id.role, p, shared) && id.role.Preflight?
    requires w < |p.workers| && Calls(p.workers[w], id)
    ensures Can(expireEvery, start, id.role, p', shared)
    ensures EntryOf(p', id).effects == EntryOf(p, id).effects + 1 && |p'.workers| == |p.workers|
    ensures forall v :: 0 <= v < |p.workers| && v != w ==> p'.workers[v] == p.workers[v]
  {
    var item, e, lease := p.workers[w].item, EntryOf(p, id), p.workers[w].stage.lease;
    p' := Progresses(expireEvery, start, id.role, p, shared, w, item, CallingApify(lease),
                     Outcome(Terminalized(e), shared, Go(Releasing(lease, Complete))));
  }

  // ---- Exactly ----

  lemma Arrives(expireEvery: nat, start: System, role: Role, id: Id)
    returns (p: Pool, shared: Shared, item: Item)
    requires Planned(start, role) && Copies(PoolOf(start, role).queue, id) >= 2 && |PoolOf(start, role).workers| >= 2
    ensures item.id == id && id.role == role && Meets(expireEvery, start, p, shared, 0, item)
    ensures EntryOf(p, id) == BLANK && |p.workers| >= 2 && p.workers[1].Idle?
    ensures Eligible(expireEvery, id) ==> item.attempt == 0
  {
    var q := PoolOf(start, role);
    PlannedIsCalm(expireEvery, start, role);
    TakenWithin(q.queue, 0, id);
    assert q.queue[..0] == [];
    p, shared, item := Fetch(expireEvery, start, role, q, start.shared, 0, None, id);
    StaysUnstarted(BLANK, start.shared, shared, id);
  }

  /** An eligible delivery is rejected undisturbed. */
  lemma RejectsAlone(expireEvery: nat, start: System, p: Pool, given: Shared, w: nat, item: Item)
    returns (p': Pool, s': A.State)
    requires Meets(expireEvery, start, p, given, w, item) && ShouldExpire(expireEvery, item, EntryOf(p, item.id))
    ensures Can(expireEvery, start, item.id.role, p', With(given, s'))
    ensures Moved(p, p', w, Idle, item.id, EntryOf(p, item.id).(expired := true), [Item(item.id, 1)])
    ensures A.Regrantable(s', ApifyInput(item.id).key) && Elsewhere(given.admission, s', ApifyInput(item.id).key)
    ensures ActiveKeys(s') == {}
  {
    var e := EntryOf(p, item.id);
    s' := ThroughRejection(expireEvery, item, e, given);
    var q, expired, after := p, e.(expired := true), With(given, s');
    q := Follow(expireEvery, start, item.id.role, p, w, item, Point(e, Fresh, given),
                Point(expired, Settled(Goal.Reject), after));
    LastOfRejected(expireEvery, item, expired, after);
    p' := Ends(expireEvery, start, item.id.role, q, after, w, item, Settled(Goal.Reject),
               Outcome(expired, after, Retry(item.(attempt := 1))));
    assert p'.workers == p.workers[w := Idle];
  }

  /** Then two others meet. */
  lemma RejectedFirst(expireEvery: nat, start: System, p: Pool, given: Shared, w: nat, item: Item)
    returns (p': Pool, shared: Shared, next: Item)
    requires Meets(expireEvery, start, p, given, w, item) && ShouldExpire(expireEvery, item, EntryOf(p, item.id))
    ensures next.id == item.id && Meets(expireEvery, start, p', shared, w, next)
    ensures EntryOf(p', item.id) == EntryOf(p, item.id).(expired := true)
    ensures p'.workers == p.workers[w := Busy(next, Fresh)]
  {
    var id, expired := item.id, EntryOf(p, item.id).(expired := true);
    var q, s' := RejectsAlone(expireEvery, start, p, given, w, item);
    OnlyOwn(given.admission, s', id, ApifyInput(id).key);
    HoldsCalm(expireEvery, id.role, p, given, q, With(given, s'), id, w, Idle, expired, [Item(id, 1)]);
    PendingMoved(p, q, w, Idle, id, expired, [Item(id, 1)]);
    Unheld(expireEvery, id.role, q, With(given, s'), id);
    p', shared, next := Fetch(expireEvery, start, id.role, q, With(given, s'), w, None, id);
    StaysUnstarted(expired, With(given, s'), shared, id);
  }

  lemma Unheld(expireEvery: nat, role: Role, p: Pool, shared: Shared, id: Id)
    requires Calm(expireEvery, role, p, shared, Some(id)) && Open(EntryOf(p, id), shared.admission, id)
    requires FreeBut(shared.slots, None)
    ensures Calm(expireEvery, role, p, shared, None)
  {}

  lemma StaysUnstarted(e: Entry, shared: Shared, shared': Shared, id: Id)
    requires Unstarted(e, shared.admission, id) && Quiet(shared.admission, id) && Untouched(shared, shared', id)
    ensures Unstarted(e, shared'.admission, id) && Quiet(shared'.admission, id)
  {
    forall k | k in shared'.admission.leases && k.provider.Gemini? ensures k.request != Uuid(2, id.ordinal) {
      assert Owned(k, id) ==> k in shared.admission.leases;
    }
  }

  lemma TwoEffects(expireEvery: nat, start: System, role: Role, id: Id) returns (events: seq<Event>, s: System)
    requires Planned(start, role) && Copies(PoolOf(start, role).queue, id) >= 2 && |PoolOf(start, role).workers| >= 2
    requires role.Paid? || Eligible(expireEvery, id)
    ensures Reaches(expireEvery, start, events, s) && EntryOf(PoolOf(s, role), id).effects == 2
  {
    var p, shared, item := Arrives(expireEvery, start, role, id);
    if role.Preflight? {
      p, shared := CalledTwice(expireEvery, start, p, shared, 0, 1, item);
      p := BothReturn(expireEvery, start, p, shared, 0, 1, id);
    } else {
      if Eligible(expireEvery, id) { p, shared, item := RejectedFirst(expireEvery, start, p, shared, 0, item); }
      p, shared := PaidTwice(expireEvery, start, p, shared, 0, 1, item);
    }
    s := Put(start, role, p, shared);
    events :| Reaches(expireEvery, start, events, s);
  }

  lemma TwoCalls(expireEvery: nat, start: System, role: Role, id: Id) returns (events: seq<Event>, s: System)
    requires Planned(start, role) && Copies(PoolOf(start, role).queue, id) >= 2 && |PoolOf(start, role).workers| >= 2
    requires Eligible(expireEvery, id)
    ensures Reaches(expireEvery, start, events, s) && EntryOf(PoolOf(s, role), id).apifyStarts == 2
  {
    var p, shared, item := Arrives(expireEvery, start, role, id);
    p, shared := CalledTwice(expireEvery, start, p, shared, 0, 1, item);
    s := Put(start, role, p, shared);
    events :| Reaches(expireEvery, start, events, s);
  }

  ghost predicate CalledAtMostOnce(expireEvery: nat, start: System, role: Role, id: Id) {
    forall events, s :: Reaches(expireEvery, start, events, s) ==> EntryOf(PoolOf(s, role), id).apifyStarts <= 1
  }

  ghost predicate TerminalAtMostOnce(expireEvery: nat, start: System, role: Role, id: Id) {
    forall events, s :: Reaches(expireEvery, start, events, s) ==> EntryOf(PoolOf(s, role), id).effects <= 1
  }

  /** No run of a launched drain calls Apify twice for the id if and only if the id was queued once at most,
      or one worker drains alone, or the id cannot take the expiry path. */
  lemma CalledOnceExactly(expireEvery: nat, start: System, role: Role, id: Id)
    requires Planned(start, role)
    ensures CalledAtMostOnce(expireEvery, start, role, id)
       <==> (Copies(PoolOf(start, role).queue, id) <= 1 || |PoolOf(start, role).workers| <= 1
             || !Eligible(expireEvery, id))
  {
    if Copies(PoolOf(start, role).queue, id) <= 1 || |PoolOf(start, role).workers| <= 1 || !Eligible(expireEvery, id) {
      forall events, s | Reaches(expireEvery, start, events, s) ensures EntryOf(PoolOf(s, role), id).apifyStarts <= 1 {
        NoMoreThanQueued(expireEvery, start, events, s, role, id);
        ApifyAtMostTwice(expireEvery, start, events, s, role, id);
      }
    } else {
      var events, s := TwoCalls(expireEvery, start, role, id);
    }
  }

  /** No run counts two terminal effects of the id if and only if the id was queued once at most, or one
      worker drains alone, or it is a preflight id that cannot take the expiry path. */
  lemma TerminalOnceExactly(expireEvery: nat, start: System, role: Role, id: Id)
    requires Planned(start, role)
    ensures TerminalAtMostOnce(expireEvery, start, role, id)
       <==> (Copies(PoolOf(start, role).queue, id) <= 1 || |PoolOf(start, role).workers| <= 1
             || (role.Preflight? && !Eligible(expireEvery, id)))
  {
    if Copies(PoolOf(start, role).queue, id) >= 2 && |PoolOf(start, role).workers| >= 2
       && (role.Paid? || Eligible(expireEvery, id)) {
      var events, s := TwoEffects(expireEvery, start, role, id);
    } else {
      forall events, s | Reaches(expireEvery, start, events, s) ensures EntryOf(PoolOf(s, role), id).effects <= 1 {
        NoMoreThanQueued(expireEvery, start, events, s, role, id);
        ApifyAtMostTwice(expireEvery, start, events, s, role, id);
        if Copies(PoolOf(start, role).queue, id) >= 2 { OfItsRole(start, role, id); }
      }
    }
  }

  lemma OfItsRole(start: System, role: Role, id: Id)
    requires Planned(start, role) && Copies(PoolOf(start, role).queue, id) >= 1
    ensures id.role == role
  {
    TakenWithin(PoolOf(start, role).queue, 0, id);
    assert PoolOf(start, role).queue[..0] == [];
  }
}
