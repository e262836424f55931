/** One undisturbed delivery: the ways from one stage of it to another, as the runs of DrainRaces and
    DrainDuplicates string them together. */
module DrainDeliveries {
  import opened Basics
  import opened Delivery
  import A = Admission
  import R = AdmissionRuns
  import G = GeminiSlots

  /** The random value all these runs draw. */
  const TOKEN := Uuid(9, 0)

  datatype Point = Point(entry: Entry, stage: Stage, shared: Shared)

  /** Where one resumption leads, if the delivery goes on. */
  function Onward(expireEvery: nat, item: Item): Point -> Option<Point> {
    (a: Point) =>
      var o := Resume(expireEvery, item, a.entry, a.stage, a.shared, TOKEN);
      if o.next.Go? then Some(Point(o.entry, o.next.stage, o.shared)) else None
  }

  /** Some number of resumptions of the delivery lead from one point to the other. */
  ghost predicate Path(expireEvery: nat, item: Item, a: Point, b: Point) {
    Way(Onward(expireEvery, item), a, b)
  }

  lemma Joined(expireEvery: nat, item: Item, a: Point, b: Point, c: Point)
    requires Path(expireEvery, item, a, b) && Path(expireEvery, item, b, c)
    ensures Path(expireEvery, item, a, c)
  {
    WayOn(Onward(expireEvery, item), a, b, c);
  }

  lemma Hop(expireEvery: nat, item: Item, a: Point, b: Point)
    requires Resume(expireEvery, item, a.entry, a.stage, a.shared, TOKEN) == Outcome(b.entry, b.shared, Go(b.stage))
    ensures Path(expireEvery, item, a, b)
  {
    OneStep(Onward(expireEvery, item), a, b);
  }

  lemma Then(expireEvery: nat, item: Item, a: Point, b: Point, c: Point)
    requires Path(expireEvery, item, a, b)
    requires Resume(expireEvery, item, b.entry, b.stage, b.shared, TOKEN) == Outcome(c.entry, c.shared, Go(c.stage))
    ensures Path(expireEvery, item, a, c)
  {
    Hop(expireEvery, item, b, c);
    Joined(expireEvery, item, a, b, c);
  }

  // ---- The admission store on these ways ----

  function ActiveKeys(s: A.State): set<A.Key> { set k | k in s.leases && A.Active(s.leases[k]) }

  /** The identity has not run, or was rejected before it did. */
  predicate Grantable(s: A.State, key: A.Key) { key in s.leases ==> A.Regrantable(s, key) }

  predicate Held(s: A.State, input: A.Input, lease: A.Lease) {
    input.key in s.leases && s.leases[input.key] == lease && lease.input == input && lease.status.Leased?
  }

  predicate InTime(s: A.State, input: A.Input, lease: A.Lease) { Held(s, input, lease) && lease.expiresAt > s.now }

  /** Nothing but one lease has changed, and nothing was denied. */
  ghost predicate Elsewhere(s: A.State, s': A.State, key: A.Key) {
    && s'.now == s.now && s'.pendingTotal == s.pendingTotal
    && forall k :: k != key ==>
         (k in s.leases <==> k in s'.leases) && (k in s.leases ==> s'.leases[k] == s.leases[k])
  }

  /** With fewer active leases than the budget takes no limit is reached. */
  lemma HasRoom(s: A.State, input: A.Input)
    requires |ActiveKeys(s)| < A.BudgetLimit(input)
    ensures !A.Full(s, input)
  {
    SubsetIsSmaller(A.ActiveGlobal(s.leases, input.key.role, input.key.provider), ActiveKeys(s));
    SubsetIsSmaller(A.ActiveBudget(s.leases, input.budget), ActiveKeys(s));
  }

  lemma Grants(s: A.State, input: A.Input)
    requires Grantable(s, input.key) && !A.Full(s, input) && input.seconds > 0
    ensures var (s', reply) := A.ApplyAcquire(s, input, TOKEN);
      reply.Granted? && InTime(s', input, reply.lease) && Elsewhere(s, s', input.key)
  {}

  lemma Acquires(s: A.State, input: A.Input) returns (s': A.State, lease: A.Lease)
    requires Grantable(s, input.key) && |ActiveKeys(s)| < A.BudgetLimit(input) && input.seconds > 0
    ensures A.ApplyAcquire(s, input, TOKEN) == (s', A.Granted(lease))
    ensures InTime(s', input, lease) && Elsewhere(s, s', input.key)
    ensures ActiveKeys(s') == ActiveKeys(s) + {input.key} && |ActiveKeys(s')| <= |ActiveKeys(s)| + 1
  {
    HasRoom(s, input);
    Grants(s, input);
    s', lease := A.ApplyAcquire(s, input, TOKEN).0, A.ApplyAcquire(s, input, TOKEN).1.lease;
    Activates(s, s', input.key);
  }

  lemma Activates(s: A.State, s': A.State, key: A.Key)
    requires Elsewhere(s, s', key) && key in s'.leases && A.Active(s'.leases[key])
    ensures ActiveKeys(s') == ActiveKeys(s) + {key}
  {}

  lemma Finishes(s: A.State, input: A.Input, lease: A.Lease) returns (s': A.State)
    requires InTime(s, input, lease)
    ensures A.ApplyRelease(s, input.key, lease.token, lease.fence, A.Terminal) == (s', A.Done)
    ensures R.ReleasedTerminal(s', input.key) && Elsewhere(s, s', input.key)
    ensures ActiveKeys(s') == ActiveKeys(s) - {input.key}
  {
    s' := A.ApplyRelease(s, input.key, lease.token, lease.fence, A.Terminal).0;
    assert ActiveKeys(s') == ActiveKeys(s) - {input.key};
  }

  /** The lease of an expiring delivery goes through recovery and ends as rejected before start. */
  lemma LeaseIsRejected(s: A.State, input: A.Input, lease: A.Lease) returns (s1: A.State, s2: A.State, s3: A.State)
    requires Held(s, input, lease)
    ensures A.ApplyExpire(s, input.key) == (s1, A.Done)
    ensures A.ApplyRelease(s1, input.key, lease.token, lease.fence, A.PrestartRejected) == (s1, A.LeaseExpired)
    ensures A.ApplyRecover(s1, input.key, TOKEN) == (s2, A.Answer(true))
    ensures A.ApplyResolve(s2, input.key) == (s3, A.Answer(true))
    ensures A.Regrantable(s3, input.key) && Elsewhere(s, s3, input.key)
    ensures ActiveKeys(s3) == ActiveKeys(s) - {input.key}
  {
    s1 := A.ApplyExpire(s, input.key).0;
    s2 := A.ApplyRecover(s1, input.key, TOKEN).0;
    s3 := A.ApplyResolve(s2, input.key).0;
    assert ActiveKeys(s3) == ActiveKeys(s) - {input.key};
  }

  // ---- The Apify stage ----

  function With(shared: Shared, s: A.State): Shared { shared.(admission := s) }

  /** What the id's entry is after one more call. */
  function Started(e: Entry): Entry { e.(provider := Some(Running), apifyStarts := e.apifyStarts + 1) }

  /** A first delivery is admitted, on the expiry path if it should take it. */
  lemma ToAdmission(expireEvery: nat, item: Item, e: Entry, marker: bool, shared: Shared)
    returns (s': A.State, lease: A.Lease)
    requires !e.terminal && e.provider.None? && marker == ShouldExpire(expireEvery, item, e)
    requires Grantable(shared.admission, ApifyInput(item.id).key)
    requires |ActiveKeys(shared.admission)| < A.BudgetLimit(ApifyInput(item.id))
    ensures Path(expireEvery, item, Point(e, Fresh, shared),
                 Point(if marker then e.(expired := true) else e, Admitted(lease, None, marker), With(shared, s')))
    ensures InTime(s', ApifyInput(item.id), lease) && Elsewhere(shared.admission, s', ApifyInput(item.id).key)
    ensures ActiveKeys(s') == ActiveKeys(shared.admission) + {ApifyInput(item.id).key}
    ensures |ActiveKeys(s')| <= |ActiveKeys(shared.admission)| + 1
  {
    var e' := if marker then e.(expired := true) else e;
    var a, b := Point(e, Fresh, shared), Point(e', Acquiring(None, marker), shared);
    Hop(expireEvery, item, a, b);
    s', lease := Acquires(shared.admission, ApifyInput(item.id));
    Then(expireEvery, item, a, b, Point(e', Admitted(lease, None, marker), With(shared, s')));
  }

  /** A delivery that need not expire makes its Apify call. */
  lemma ToApify(expireEvery: nat, item: Item, e: Entry, shared: Shared) returns (s': A.State, lease: A.Lease)
    requires !e.terminal && e.provider.None? && !ShouldExpire(expireEvery, item, e)
    requires Grantable(shared.admission, ApifyInput(item.id).key)
    requires |ActiveKeys(shared.admission)| < A.BudgetLimit(ApifyInput(item.id))
    ensures Path(expireEvery, item, Point(e, Fresh, shared),
                 Point(Started(e), CallingApify(lease),
                       With(shared, s')))
    ensures InTime(s', ApifyInput(item.id), lease) && Elsewhere(shared.admission, s', ApifyInput(item.id).key)
    ensures ActiveKeys(s') == ActiveKeys(shared.admission) + {ApifyInput(item.id).key}
    ensures |ActiveKeys(s')| <= |ActiveKeys(shared.admission)| + 1
  {
    s', lease := ToAdmission(expireEvery, item, e, false, shared);
    Then(expireEvery, item, Point(e, Fresh, shared), Point(e, Admitted(lease, None, false), With(shared, s')),
         Point(Started(e), CallingApify(lease), With(shared, s')));
  }

  /** A second delivery shares a lease that is still held, and makes the call. */
  lemma ToSharedApify(expireEvery: nat, item: Item, e: Entry, shared: Shared, lease: A.Lease)
    requires !e.terminal && e.provider.None? && !ShouldExpire(expireEvery, item, e)
    requires Held(shared.admission, ApifyInput(item.id), lease)
    ensures Path(expireEvery, item, Point(e, Fresh, shared),
                 Point(Started(e), CallingApify(lease), shared))
  {
    var a, b, c := Point(e, Fresh, shared), Point(e, Acquiring(None, false), shared),
                   Point(e, Admitted(lease, None, false), shared);
    Hop(expireEvery, item, a, b);
    assert A.ApplyAcquire(shared.admission, ApifyInput(item.id), TOKEN) == (shared.admission, A.AlreadyAcquired(lease));
    assert With(shared, shared.admission) == shared;
    Then(expireEvery, item, a, b, c);
    Then(expireEvery, item, a, c,
         Point(Started(e), CallingApify(lease), shared));
  }

  /** What the id's entry is once its Apify call is settled. */
  function Called(id: Id, e: Entry): Entry {
    (if id.role.Preflight? then Terminalized(e) else e).(provider := Some(Succeeded))
  }

  /** The call returns, the lease is released in time, and the success is recorded. */
  lemma FromApify(expireEvery: nat, item: Item, e: Entry, lease: A.Lease, shared: Shared) returns (s': A.State)
    requires InTime(shared.admission, ApifyInput(item.id), lease)
    ensures Path(expireEvery, item, Point(e, CallingApify(lease), shared),
                 Point(Called(item.id, e), Returned, With(shared, s')))
    ensures R.ReleasedTerminal(s', ApifyInput(item.id).key) && Elsewhere(shared.admission, s', ApifyInput(item.id).key)
    ensures ActiveKeys(s') == ActiveKeys(shared.admission) - {ApifyInput(item.id).key}
  {
    var e' := if item.id.role.Preflight? then Terminalized(e) else e;
    s' := Finishes(shared.admission, ApifyInput(item.id), lease);
    var a, b, c := Point(e, CallingApify(lease), shared), Point(e', Releasing(lease, Complete), shared),
                   Point(e', Settled(Complete), With(shared, s'));
    Hop(expireEvery, item, a, b);
    Then(expireEvery, item, a, b, c);
    Then(expireEvery, item, a, c, Point(Called(item.id, e), Returned, With(shared, s')));
  }

  // ---- The expiry path ----

  /** The expiring delivery erases a running mark, whoever set it, and has the lease rejected. */
  lemma ToRejection(expireEvery: nat, item: Item, e: Entry, lease: A.Lease, shared: Shared) returns (s': A.State)
    requires Held(shared.admission, ApifyInput(item.id), lease)
    ensures Path(expireEvery, item, Point(e, Admitted(lease, None, true), shared),
                 Point(Erased(e), Settled(Goal.Reject), With(shared, s')))
    ensures A.Regrantable(s', ApifyInput(item.id).key) && Elsewhere(shared.admission, s', ApifyInput(item.id).key)
    ensures ActiveKeys(s') == ActiveKeys(shared.admission) - {ApifyInput(item.id).key}
  {
    var s1, s2, s3 := LeaseIsRejected(shared.admission, ApifyInput(item.id), lease);
    s' := s3;
    var a := Point(e, Admitted(lease, None, true), shared);
    var b := Point(Erased(e), Releasing(lease, Goal.Reject), With(shared, s1));
    var c := Point(Erased(e), Recovering(lease, Goal.Reject), With(shared, s1));
    var d := Point(Erased(e), Resolving(lease, Goal.Reject), With(shared, s2));
    Hop(expireEvery, item, a, b);
    Then(expireEvery, item, a, b, c);
    Then(expireEvery, item, a, c, d);
    Then(expireEvery, item, a, d, Point(Erased(e), Settled(Goal.Reject), With(shared, s3)));
  }

  // ---- The Gemini stage ----

  /** Every slot but those of one identity is free. */
  ghost predicate FreeBut(t: seq<G.Slot>, identity: Option<G.Identity>) {
    G.Valid(t) && forall i :: 0 <= i < |t| && t[i].identity.Some? ==> t[i].identity == identity
  }

  /** The slot of this number is held under exactly this claim and fence. */
  predicate HasSlot(t: seq<G.Slot>, slot: SlotLease, identity: G.Identity) {
    1 <= slot.slot <= |t| && t[slot.slot - 1] == G.Slot(slot.fence, Some(slot.claim), Some(identity))
  }

  /** Slots of other identities have not changed. */
  ghost predicate SlotsApart(t: seq<G.Slot>, t': seq<G.Slot>, identity: G.Identity) {
    && |t'| == |t|
    && forall i :: 0 <= i < |t| && t[i].identity.Some? && t[i].identity != Some(identity) ==> t'[i] == t[i]
  }

  lemma TakesSlot(t: seq<G.Slot>, identity: G.Identity, others: Option<G.Identity>)
    returns (t': seq<G.Slot>, slot: SlotLease)
    requires FreeBut(t, others) && others != Some(identity)
    ensures G.Apply(t, G.Take(identity, TOKEN)) == (t', G.Taken(slot.slot, TOKEN, slot.fence))
    ensures slot.claim == TOKEN && HasSlot(t', slot, identity) && G.Valid(t') && SlotsApart(t, t', identity)
    ensures forall i :: 0 <= i < |t'| && i != slot.slot - 1 ==> t'[i] == t[i]
    ensures t[slot.slot - 1].identity.None?
  {
    assert G.FirstHeldBy(t, identity, 0) == |t|;
    assert t[0].identity.None? || t[1].identity.None?;
    var free := G.FirstFree(t, 0);
    assert t[free].claim.None?;
    G.StepKeepsValid(t, G.Take(identity, TOKEN));
    t', slot := G.Apply(t, G.Take(identity, TOKEN)).0, SlotLease(free + 1, TOKEN, t[free].fence + 1);
  }

  lemma ClaimsGemini(expireEvery: nat, item: Item, e: Entry, shared: Shared, t': seq<G.Slot>, slot: SlotLease)
    requires item.id.role.Paid? && e.provider == Some(Succeeded) && e.gemini.None?
    requires G.Apply(shared.slots, G.Take(GeminiIdentity(item.id), TOKEN))
          == (t', G.Taken(slot.slot, TOKEN, slot.fence))
    requires slot.claim == TOKEN
    ensures Path(expireEvery, item, Point(e, Returned, shared),
                 Point(e.(gemini := Some(Running)), GeminiAdmitting(slot), shared.(slots := t')))
  {
    var b := Point(e.(gemini := Some(Running)), GeminiAdmitting(slot), shared.(slots := t'));
    Hop(expireEvery, item, Point(e, Returned, shared), b);
  }

  lemma AdmitsGemini(expireEvery: nat, item: Item, e: Entry, slot: SlotLease, shared: Shared, s': A.State,
                     lease: A.Lease)
    requires A.ApplyAcquire(shared.admission, GeminiInput(item.id, slot), TOKEN) == (s', A.Granted(lease))
    ensures Path(expireEvery, item, Point(e, GeminiAdmitting(slot), shared),
                 Point(e, GeminiAdmitted(slot, lease), With(shared, s')))
  {
    var b := Point(e, GeminiAdmitted(slot, lease), With(shared, s'));
    Hop(expireEvery, item, Point(e, GeminiAdmitting(slot), shared), b);
  }

  /** What the id's entry is once its Gemini call has succeeded. */
  function Generated(e: Entry): Entry { e.(gemini := Some(Succeeded), geminiStarts := e.geminiStarts + 1) }

  lemma ToSlot(expireEvery: nat, item: Item, e: Entry, shared: Shared, others: Option<G.Identity>)
    returns (t': seq<G.Slot>, slot: SlotLease)
    requires item.id.role.Paid? && e.provider == Some(Succeeded) && e.gemini.None?
    requires FreeBut(shared.slots, others) && others != Some(GeminiIdentity(item.id))
    ensures Path(expireEvery, item, Point(e, Returned, shared),
                 Point(e.(gemini := Some(Running)), GeminiAdmitting(slot), shared.(slots := t')))
    ensures HasSlot(t', slot, GeminiIdentity(item.id)) && G.Valid(t')
    ensures SlotsApart(shared.slots, t', GeminiIdentity(item.id))
    ensures forall i :: 0 <= i < |t'| && i != slot.slot - 1 ==> t'[i] == shared.slots[i]
  {
    t', slot := TakesSlot(shared.slots, GeminiIdentity(item.id), others);
    ClaimsGemini(expireEvery, item, e, shared, t', slot);
  }

  lemma ToGeminiLease(expireEvery: nat, item: Item, e: Entry, slot: SlotLease, shared: Shared)
    returns (s': A.State, lease: A.Lease)
    requires Grantable(shared.admission, GeminiInput(item.id, slot).key) && |ActiveKeys(shared.admission)| <= 7
    ensures Path(expireEvery, item, Point(e, GeminiAdmitting(slot), shared),
                 Point(e, GeminiAdmitted(slot, lease), With(shared, s')))
    ensures InTime(s', GeminiInput(item.id, slot), lease)
    ensures Elsewhere(shared.admission, s', GeminiInput(item.id, slot).key)
    ensures ActiveKeys(s') == ActiveKeys(shared.admission) + {GeminiInput(item.id, slot).key}
    ensures |ActiveKeys(s')| <= |ActiveKeys(shared.admission)| + 1
  {
    s', lease := Acquires(shared.admission, GeminiInput(item.id, slot));
    AdmitsGemini(expireEvery, item, e, slot, shared, s', lease);
  }

  /** A paid delivery past the Apify stage makes its Gemini call and is about to release the admission. */
  lemma ToGemini(expireEvery: nat, item: Item, e: Entry, shared: Shared, others: Option<G.Identity>)
    returns (shared': Shared, slot: SlotLease, lease: A.Lease)
    requires item.id.role.Paid? && e.provider == Some(Succeeded) && e.gemini.None?
    requires FreeBut(shared.slots, others) && others != Some(GeminiIdentity(item.id))
    requires forall k :: k in shared.admission.leases && k.provider.Gemini? ==> k.request != Uuid(2, item.id.ordinal)
    requires |ActiveKeys(shared.admission)| <= 7
    ensures Path(expireEvery, item, Point(e, Returned, shared),
                 Point(Generated(e), GeminiReleasing(slot, lease), shared'))
    ensures InTime(shared'.admission, GeminiInput(item.id, slot), lease)
    ensures Elsewhere(shared.admission, shared'.admission, GeminiInput(item.id, slot).key)
    ensures ActiveKeys(shared'.admission) == ActiveKeys(shared.admission) + {GeminiInput(item.id, slot).key}
    ensures |ActiveKeys(shared'.admission)| <= |ActiveKeys(shared.admission)| + 1
    ensures HasSlot(shared'.slots, slot, GeminiIdentity(item.id)) && G.Valid(shared'.slots)
    ensures SlotsApart(shared.slots, shared'.slots, GeminiIdentity(item.id))
    ensures forall i :: 0 <= i < |shared'.slots| && i != slot.slot - 1 ==> shared'.slots[i] == shared.slots[i]
  {
    var t', s';
    t', slot := ToSlot(expireEvery, item, e, shared, others);
    var running, taken := e.(gemini := Some(Running)), shared.(slots := t');
    s', lease := ToGeminiLease(expireEvery, item, running, slot, taken);
    shared' := With(taken, s');
    var a, b, c := Point(e, Returned, shared), Point(running, GeminiAdmitting(slot), taken),
                   Point(running, GeminiAdmitted(slot, lease), shared');
    Joined(expireEvery, item, a, b, c);
    GeminiCall(expireEvery, item, running, slot, lease, shared');
    assert Generated(running) == Generated(e);
    Joined(expireEvery, item, a, c, Point(Generated(e), GeminiReleasing(slot, lease), shared'));
  }

  lemma GeminiCall(expireEvery: nat, item: Item, e: Entry, slot: SlotLease, lease: A.Lease, shared: Shared)
    ensures Path(expireEvery, item, Point(e, GeminiAdmitted(slot, lease), shared),
                 Point(Generated(e), GeminiReleasing(slot, lease), shared))
  {
    var a := Point(e, GeminiAdmitted(slot, lease), shared);
    var b := Point(e.(geminiStarts := e.geminiStarts + 1), CallingGemini(slot, lease), shared);
    Hop(expireEvery, item, a, b);
    Then(expireEvery, item, a, b, Point(Generated(e), GeminiReleasing(slot, lease), shared));
  }

  /** It releases its admission in time and frees its slot. */
  lemma FromGemini(expireEvery: nat, item: Item, e: Entry, slot: SlotLease, lease: A.Lease, shared: Shared)
    returns (shared': Shared)
    requires InTime(shared.admission, GeminiInput(item.id, slot), lease)
    requires HasSlot(shared.slots, slot, GeminiIdentity(item.id))
    ensures Path(expireEvery, item, Point(e, GeminiReleasing(slot, lease), shared), Point(e, GeminiDone, shared'))
    ensures R.ReleasedTerminal(shared'.admission, GeminiInput(item.id, slot).key)
    ensures Elsewhere(shared.admission, shared'.admission, GeminiInput(item.id, slot).key)
    ensures ActiveKeys(shared'.admission) == ActiveKeys(shared.admission) - {GeminiInput(item.id, slot).key}
    ensures shared'.slots == shared.slots[slot.slot - 1 := G.Slot(slot.fence, None, None)]
  {
    var s' := Finishes(shared.admission, GeminiInput(item.id, slot), lease);
    var released := With(shared, s');
    shared' := released.(slots := shared.slots[slot.slot - 1 := G.Slot(slot.fence, None, None)]);
    var a, b := Point(e, GeminiReleasing(slot, lease), shared), Point(e, GeminiFreeing(slot), released);
    Hop(expireEvery, item, a, b);
    Then(expireEvery, item, a, b, Point(e, GeminiDone, shared'));
  }
}
