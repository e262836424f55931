/** A drain with more workers than its role may have admissions: a run in which one delivery is denied for
    want of room, is queued again, and the drain nevertheless returns with all its ids terminal. */
module DrainCrowds {
  import opened Basics
  import opened Delivery
  import opened Drain
  import opened DrainDeliveries
  import opened DrainRaces
  import opened DrainSystem
  import A = Admission
  import D = DrainReleases
  import R = AdmissionRuns

  function Limit(role: Role): nat { A.GlobalLimit(role, A.Apify) }

  /** No credential slot's budget is a relationship budget. */
  lemma ApifyBudget(id: Id)
    ensures A.BudgetLimit(ApifyInput(id)) == Limit(id.role)
  {
    var budget := ApifyInput(id).budget;
    assert budget[|budget| - 1] == 'y' != ":relationship"[12];
  }

  // ---- Deliveries at their Apify call ----

  predicate Among(items: seq<Item>, id: Id) { exists i :: 0 <= i < |items| && items[i].id == id }

  predicate Distinct(items: seq<Item>) {
    forall i, j :: 0 <= i < |items| && 0 <= j < |items| && items[i].id == items[j].id ==> i == j
  }

  function Keys(items: seq<Item>): set<A.Key> { set i | 0 <= i < |items| :: ApifyInput(items[i].id).key }

  lemma KeyIsNew(items: seq<Item>, x: Item)
    ensures Keys(items + [x]) == Keys(items) + {ApifyInput(x.id).key}
    ensures !Among(items, x.id) ==> ApifyInput(x.id).key !in Keys(items)
  {
    var longer := items + [x];
    forall k | k in Keys(longer) ensures k in Keys(items) + {ApifyInput(x.id).key} {
      var i :| 0 <= i < |longer| && ApifyInput(longer[i].id).key == k;
      if i < |items| { assert ApifyInput(items[i].id).key == k; }
    }
    forall k | k in Keys(items) + {ApifyInput(x.id).key} ensures k in Keys(longer) {
      if k in Keys(items) {
        var i :| 0 <= i < |items| && ApifyInput(items[i].id).key == k;
        assert ApifyInput(longer[i].id).key == k;
      } else {
        assert ApifyInput(longer[|items|].id).key == k;
      }
    }
    if !Among(items, x.id) && ApifyInput(x.id).key in Keys(items) {
      var i :| 0 <= i < |items| && ApifyInput(items[i].id).key == ApifyInput(x.id).key;
      IdentitiesAreDistinct(items[i].id, x.id, SlotLease(0, TOKEN, 0), SlotLease(0, TOKEN, 0));
    }
  }

  lemma {:induction false} KeysCount(items: seq<Item>)
    requires Distinct(items)
    ensures |Keys(items)| == |items|
    decreases |items|
  {
    if items != [] {
      var shorter, x := items[..|items| - 1], items[|items| - 1];
      assert items == shorter + [x];
      KeysCount(shorter);
      KeyIsNew(shorter, x);
    }
  }

  ghost predicate Works(role: Role, p: Pool, s: A.State, w: nat, item: Item, lease: A.Lease) {
    && w < |p.workers| && p.workers[w] == Busy(item, CallingApify(lease))
    && item.id.role == role && InTime(s, ApifyInput(item.id), lease) && D.NoGemini(s, item.id)
    && EntryOf(p, item.id).gemini.None? && !EntryOf(p, item.id).terminal && EntryOf(p, item.id).effects == 0
  }

  /** The first workers each have a delivery of another id at its Apify call; all others are idle. */
  ghost predicate Stacked(role: Role, p: Pool, s: A.State, items: seq<Item>, leases: seq<A.Lease>) {
    && |leases| == |items| <= |p.workers| && |items| <= Limit(role) && Distinct(items)
    && (forall i :: 0 <= i < |items| ==> Works(role, p, s, i, items[i], leases[i]))
    && (forall i :: |items| <= i < |p.workers| ==> p.workers[i].Idle?)
    && (forall id: Id :: id.role == role && !Among(items, id) ==> Open(EntryOf(p, id), s, id))
    && ActiveKeys(s) == Keys(items)
  }

  ghost predicate Crowd(expireEvery: nat, start: System, role: Role, p: Pool, shared: Shared, items: seq<Item>,
                        leases: seq<A.Lease>) {
    && Can(expireEvery, start, role, p, shared) && Ordered(expireEvery, role, p) && FreeBut(shared.slots, None)
    && Stacked(role, p, shared.admission, items, leases)
  }

  /** The next item is a delivery of yet another id that has not been started and need not expire. */
  ghost predicate NewNext(expireEvery: nat, p: Pool, items: seq<Item>) {
    && p.cursor < |p.queue| && |items| < |p.workers| && !Among(items, p.queue[p.cursor].id)
    && !EntryOf(p, p.queue[p.cursor].id).terminal && !Eligible(expireEvery, p.queue[p.cursor].id)
  }

  // ---- One more ----

  lemma OthersWork(role: Role, p: Pool, p': Pool, s: A.State, s': A.State, w: nat, item: Item, lease: A.Lease, id: Id)
    requires Works(role, p, s, w, item, lease) && Apart(s, s', id) && item.id != id && id.role == role
    requires w < |p'.workers| && p'.workers[w] == p.workers[w] && EntryOf(p', item.id) == EntryOf(p, item.id)
    ensures Works(role, p', s', w, item, lease)
  {
    forall k | Owned(k, item.id) ensures !Owned(k, id) {}
    forall k | k in s'.leases ensures !D.GeminiKey(k, item.id) {
      assert D.GeminiKey(k, item.id) ==> Owned(k, item.id);
    }
  }

  /** One id has changed; the others work on, or stay as they were. */
  lemma StillStacked(role: Role, p: Pool, s: A.State, p': Pool, s': A.State, items: seq<Item>, leases: seq<A.Lease>,
                     id: Id, w: nat)
    requires Stacked(role, p, s, items, leases) && Apart(s, s', id) && id.role == role
    requires w < |p.workers| && |p'.workers| == |p.workers|
    requires forall v :: 0 <= v < |p.workers| && v != w ==> p'.workers[v] == p.workers[v]
    requires forall other :: other != id ==> EntryOf(p', other) == EntryOf(p, other)
    ensures forall i :: 0 <= i < |items| && i != w && items[i].id != id ==> Works(role, p', s', i, items[i], leases[i])
    ensures forall other: Id :: other.role == role && !Among(items, other) && other != id ==>
      Open(EntryOf(p', other), s', other)
  {
    forall i | 0 <= i < |items| && i != w && items[i].id != id ensures Works(role, p', s', i, items[i], leases[i]) {
      OthersWork(role, p, p', s, s', i, items[i], leases[i], id);
    }
    forall other: Id | other.role == role && !Among(items, other) && other != id
      ensures Open(EntryOf(p', other), s', other)
    {
      ApartKeeps(s, s', id, EntryOf(p, other), other);
    }
  }

  lemma Calls(expireEvery: nat, start: System, role: Role, p: Pool, shared: Shared, items: seq<Item>,
              leases: seq<A.Lease>) returns (p': Pool, s': A.State, lease: A.Lease)
    requires Crowd(expireEvery, start, role, p, shared, items, leases) && NewNext(expireEvery, p, items)
    requires |items| < Limit(role)
    ensures var x := p.queue[p.cursor];
      && Can(expireEvery, start, role, p', With(shared, s'))
      && p'.queue == p.queue && p'.cursor == p.cursor + 1 && p'.taken == p.taken + [x]
      && p'.workers == p.workers[|items| := Busy(x, CallingApify(lease))]
      && EntryOf(p', x.id) == Started(EntryOf(p, x.id))
      && (forall other :: other != x.id ==> EntryOf(p', other) == EntryOf(p, other))
      && InTime(s', ApifyInput(x.id), lease) && Elsewhere(shared.admission, s', ApifyInput(x.id).key)
      && ActiveKeys(s') == ActiveKeys(shared.admission) + {ApifyInput(x.id).key}
  {
    var x, w := p.queue[p.cursor], |items|;
    var e := EntryOf(p, x.id);
    NextIsReady(expireEvery, start, role, p, shared, items, leases);
    s', lease := ToApify(expireEvery, x, e, shared);
    p' := TakesTo(expireEvery, start, role, p, shared, w, x, Point(Started(e), CallingApify(lease), With(shared, s')));
  }

  /** The next worker is idle, and the next item can be started. */
  lemma NextIsReady(expireEvery: nat, start: System, role: Role, p: Pool, shared: Shared, items: seq<Item>,
                    leases: seq<A.Lease>)
    requires Crowd(expireEvery, start, role, p, shared, items, leases) && NewNext(expireEvery, p, items)
    ensures var x := p.queue[p.cursor];
      && x.id.role == role && p.workers[|items|].Idle? && NoneParked(p.workers)
      && Unstarted(EntryOf(p, x.id), shared.admission, x.id) && !ShouldExpire(expireEvery, x, EntryOf(p, x.id))
      && |ActiveKeys(shared.admission)| == |items| && A.BudgetLimit(ApifyInput(x.id)) == Limit(role)
  {
    KeysCount(items);
    ApifyBudget(p.queue[p.cursor].id);
    assert Open(EntryOf(p, p.queue[p.cursor].id), shared.admission, p.queue[p.cursor].id);
  }

  lemma TakesTo(expireEvery: nat, start: System, role: Role, p: Pool, shared: Shared, w: nat, x: Item, b: Point)
    returns (p': Pool)
    requires Can(expireEvery, start, role, p, shared)
    requires w < |p.workers| && p.workers[w].Idle? && p.cursor < |p.queue| && p.queue[p.cursor] == x
    requires Path(expireEvery, x, Point(EntryOf(p, x.id), Fresh, shared), b)
    ensures Can(expireEvery, start, role, p', b.shared)
    ensures p'.queue == p.queue && p'.cursor == p.cursor + 1 && p'.taken == p.taken + [x]
    ensures p'.workers == p.workers[w := Busy(x, b.stage)] && EntryOf(p', x.id) == b.entry
    ensures forall other :: other != x.id ==> EntryOf(p', other) == EntryOf(p, other)
  {
    var q := Takes(expireEvery, start, role, p, shared, w);
    p' := Follow(expireEvery, start, role, q, w, x, Point(EntryOf(p, x.id), Fresh, shared), b);
    assert p'.queue == p.queue && p'.workers == p.workers[w := Busy(x, b.stage)];
  }

  lemma Joins(expireEvery: nat, start: System, role: Role, p: Pool, shared: Shared, items: seq<Item>,
              leases: seq<A.Lease>) returns (p': Pool, shared': Shared, lease: A.Lease)
    requires Crowd(expireEvery, start, role, p, shared, items, leases) && NewNext(expireEvery, p, items)
    requires |items| < Limit(role)
    ensures Crowd(expireEvery, start, role, p', shared', items + [p.queue[p.cursor]], leases + [lease])
    ensures p'.queue == p.queue && p'.cursor == p.cursor + 1 && |p'.workers| == |p.workers|
    ensures shared'.admission.pendingTotal == shared.admission.pendingTotal
    ensures forall other :: other != p.queue[p.cursor].id ==> EntryOf(p', other) == EntryOf(p, other)
    ensures forall k :: k in shared'.admission.leases && k != ApifyInput(p.queue[p.cursor].id).key ==>
      k in shared.admission.leases
  {
    var x, w := p.queue[p.cursor], |items|;
    var s';
    p', s', lease := Calls(expireEvery, start, role, p, shared, items, leases);
    shared' := With(shared, s');
    assert Open(EntryOf(p, x.id), shared.admission, x.id);
    OnlyOwn(shared.admission, s', x.id, ApifyInput(x.id).key);
    StillStacked(role, p, shared.admission, p', s', items, leases, x.id, w);
    KeyIsNew(items, x);
    JoinsStack(role, p', s', items, leases, x, lease);
    JoinsOrder(expireEvery, role, p, p', x);
  }

  lemma JoinsOrder(expireEvery: nat, role: Role, p: Pool, p': Pool, x: Item)
    requires Ordered(expireEvery, role, p) && p.cursor < |p.queue| && x == p.queue[p.cursor]
    requires p'.queue == p.queue && p'.cursor == p.cursor + 1 && p'.taken == p.taken + [x] && NoneParked(p'.workers)
    requires forall other :: EntryOf(p, other).expired ==> EntryOf(p', other).expired
    ensures Ordered(expireEvery, role, p')
  {
    assert p'.taken == p'.queue[..p'.cursor];
    forall i | p'.cursor <= i < |p'.queue|
      ensures p'.queue[i].id.role == role && FirstOrFree(expireEvery, p', p'.queue[i])
    {
      assert FirstOrFree(expireEvery, p, p.queue[i]);
    }
  }

  lemma JoinsStack(role: Role, p: Pool, s: A.State, items: seq<Item>, leases: seq<A.Lease>, x: Item, lease: A.Lease)
    requires |leases| == |items| < |p.workers| && |items| < Limit(role) && Distinct(items) && !Among(items, x.id)
    requires forall i :: 0 <= i < |items| ==> Works(role, p, s, i, items[i], leases[i])
    requires Works(role, p, s, |items|, x, lease)
    requires forall i :: |items| < i < |p.workers| ==> p.workers[i].Idle?
    requires forall id: Id :: id.role == role && !Among(items, id) && id != x.id ==> Open(EntryOf(p, id), s, id)
    requires ActiveKeys(s) == Keys(items + [x])
    ensures Stacked(role, p, s, items + [x], leases + [lease])
  {
    var longer := items + [x];
    forall id: Id | id.role == role && !Among(longer, id) ensures Open(EntryOf(p, id), s, id) {
      assert longer[|items|].id == x.id;
      assert forall i :: 0 <= i < |items| ==> items[i] == longer[i];
    }
  }

  // ---- One too many ----

  /** With as many deliveries at their call as the role may have leases, it is full. */
  lemma IsFull(role: Role, p: Pool, s: A.State, items: seq<Item>, leases: seq<A.Lease>, x: Id)
    requires Stacked(role, p, s, items, leases) && |items| == Limit(role) && x.role == role
    ensures A.Full(s, ApifyInput(x))
  {
    var active := A.ActiveGlobal(s.leases, role, A.Apify);
    forall k | k in Keys(items) ensures k in active {
      var i :| 0 <= i < |items| && ApifyInput(items[i].id).key == k;
      assert Works(role, p, s, i, items[i], leases[i]);
    }
    SubsetIsSmaller(Keys(items), active);
    KeysCount(items);
  }

  /** The store has only counted a denial. */
  predicate Counted(s: A.State, s': A.State) {
    s'.leases == s.leases && s'.now == s.now && s'.pendingTotal == s.pendingTotal + 1
  }

  lemma ToDenial(expireEvery: nat, item: Item, e: Entry, shared: Shared) returns (s': A.State)
    requires !e.terminal && e.provider.None? && !ShouldExpire(expireEvery, item, e)
    requires ApifyInput(item.id).key !in shared.admission.leases && A.Full(shared.admission, ApifyInput(item.id))
    ensures Path(expireEvery, item, Point(e, Fresh, shared), Point(e, Denied(false), With(shared, s')))
    ensures Counted(shared.admission, s')
  {
    var a, b := Point(e, Fresh, shared), Point(e, Acquiring(None, false), shared);
    Hop(expireEvery, item, a, b);
    s' := A.ApplyAcquire(shared.admission, ApifyInput(item.id), TOKEN).0;
    assert A.ApplyAcquire(shared.admission, ApifyInput(item.id), TOKEN) == (s', A.CapacityPending);
    DenialHop(expireEvery, item, e, shared, s');
    Joined(expireEvery, item, a, b, Point(e, Denied(false), With(shared, s')));
  }

  lemma DenialHop(expireEvery: nat, item: Item, e: Entry, shared: Shared, s': A.State)
    requires A.ApplyAcquire(shared.admission, ApifyInput(item.id), TOKEN) == (s', A.CapacityPending)
    ensures Path(expireEvery, item, Point(e, Acquiring(None, false), shared), Point(e, Denied(false), With(shared, s')))
  {
    Hop(expireEvery, item, Point(e, Acquiring(None, false), shared), Point(e, Denied(false), With(shared, s')));
  }

  lemma LastOfDenied(expireEvery: nat, item: Item, e: Entry, shared: Shared)
    ensures Resume(expireEvery, item, e, Denied(false), shared, TOKEN)
         == Outcome(e, shared, Retry(item.(attempt := item.attempt + 1)))
  {}

  lemma NextIsDenied(expireEvery: nat, start: System, role: Role, p: Pool, shared: Shared, items: seq<Item>,
                     leases: seq<A.Lease>) returns (s': A.State)
    requires Crowd(expireEvery, start, role, p, shared, items, leases) && NewNext(expireEvery, p, items)
    requires |items| == Limit(role) && ApifyInput(p.queue[p.cursor].id).key !in shared.admission.leases
    ensures var x := p.queue[p.cursor];
      Path(expireEvery, x, Point(EntryOf(p, x.id), Fresh, shared),
           Point(EntryOf(p, x.id), Denied(false), With(shared, s')))
    ensures Counted(shared.admission, s')
  {
    var x := p.queue[p.cursor];
    NextIsReady(expireEvery, start, role, p, shared, items, leases);
    IsFull(role, p, shared.admission, items, leases, x.id);
    s' := ToDenial(expireEvery, x, EntryOf(p, x.id), shared);
  }

  lemma DenialServed(expireEvery: nat, start: System, role: Role, p: Pool, shared: Shared, w: nat, x: Item,
                     given: Shared) returns (p': Pool)
    requires Can(expireEvery, start, role, p, shared) && NoneParked(p.workers)
    requires w < |p.workers| && p.workers[w].Idle? && p.cursor < |p.queue| && p.queue[p.cursor] == x
    requires Path(expireEvery, x, Point(EntryOf(p, x.id), Fresh, shared), Point(EntryOf(p, x.id), Denied(false), given))
    ensures Can(expireEvery, start, role, p', given)
    ensures Served(p, p', x, EntryOf(p, x.id), [x.(attempt := x.attempt + 1)])
  {
    LastOfDenied(expireEvery, x, EntryOf(p, x.id), given);
    p' := Serves(expireEvery, start, role, p, shared, w, x, Point(EntryOf(p, x.id), Denied(false), given),
                 Outcome(EntryOf(p, x.id), given, Retry(x.(attempt := x.attempt + 1))));
  }

  lemma Waits(expireEvery: nat, start: System, role: Role, p: Pool, shared: Shared, items: seq<Item>,
              leases: seq<A.Lease>) returns (p': Pool, shared': Shared)
    requires Crowd(expireEvery, start, role, p, shared, items, leases) && NewNext(expireEvery, p, items)
    requires |items| == Limit(role) && ApifyInput(p.queue[p.cursor].id).key !in shared.admission.leases
    ensures var x := p.queue[p.cursor];
      && Can(expireEvery, start, role, p', shared') && Counted(shared.admission, shared'.admission)
      && shared'.slots == shared.slots
      && Served(p, p', x, EntryOf(p, x.id), [x.(attempt := x.attempt + 1)])
  {
    NextIsReady(expireEvery, start, role, p, shared, items, leases);
    var s' := NextIsDenied(expireEvery, start, role, p, shared, items, leases);
    shared' := With(shared, s');
    p' := DenialServed(expireEvery, start, role, p, shared, |items|, p.queue[p.cursor], shared');
  }

  lemma NoneParkedIn(role: Role, p: Pool, s: A.State, items: seq<Item>, leases: seq<A.Lease>)
    requires Stacked(role, p, s, items, leases)
    ensures NoneParked(p.workers)
  {
    forall v | 0 <= v < |p.workers| ensures !p.workers[v].Parked? {
      if v < |items| { assert Works(role, p, s, v, items[v], leases[v]); }
    }
  }

  /** The delivery that comes when the role is full is denied and queued again, and disturbs nobody. */
  lemma IsDenied(expireEvery: nat, start: System, role: Role, p: Pool, shared: Shared, items: seq<Item>,
                 leases: seq<A.Lease>) returns (p': Pool, shared': Shared)
    requires Crowd(expireEvery, start, role, p, shared, items, leases) && NewNext(expireEvery, p, items)
    requires |items| == Limit(role) && ApifyInput(p.queue[p.cursor].id).key !in shared.admission.leases
    ensures Crowd(expireEvery, start, role, p', shared', items, leases)
    ensures p'.queue == p.queue + [p.queue[p.cursor].(attempt := p.queue[p.cursor].attempt + 1)]
    ensures shared'.admission.pendingTotal == shared.admission.pendingTotal + 1
  {
    var x := p.queue[p.cursor];
    p', shared' := Waits(expireEvery, start, role, p, shared, items, leases);
    SameStack(role, p, shared.admission, p', shared'.admission, items, leases);
    DeniedOrder(expireEvery, role, p, p', x);
  }

  lemma SameStack(role: Role, p: Pool, s: A.State, p': Pool, s': A.State, items: seq<Item>, leases: seq<A.Lease>)
    requires Stacked(role, p, s, items, leases) && s'.leases == s.leases && s'.now == s.now
    requires p'.workers == p.workers && forall id :: EntryOf(p', id) == EntryOf(p, id)
    ensures Stacked(role, p', s', items, leases)
  {
    forall i | 0 <= i < |items| ensures Works(role, p', s', i, items[i], leases[i]) {
      assert Works(role, p, s, i, items[i], leases[i]);
    }
    forall id: Id | id.role == role && !Among(items, id) ensures Open(EntryOf(p', id), s', id) {
      assert Open(EntryOf(p, id), s, id);
    }
  }

  lemma DeniedOrder(expireEvery: nat, role: Role, p: Pool, p': Pool, x: Item)
    requires Ordered(expireEvery, role, p) && p.cursor < |p.queue| && x == p.queue[p.cursor]
    requires Served(p, p', x, EntryOf(p, x.id), [x.(attempt := x.attempt + 1)]) && !Eligible(expireEvery, x.id)
    ensures Ordered(expireEvery, role, p')
  {
    assert p'.taken == p'.queue[..p'.cursor];
    forall i | p'.cursor <= i < |p'.queue|
      ensures p'.queue[i].id.role == role && FirstOrFree(expireEvery, p', p'.queue[i])
    {
      if i < |p.queue| { assert FirstOrFree(expireEvery, p, p.queue[i]) && p'.queue[i] == p.queue[i]; }
    }
  }

  // ---- One less ----

  lemma PreflightConcluded(s: A.State, id: Id)
    requires id.role.Preflight? && R.ReleasedTerminal(s, ApifyInput(id).key) && D.NoGemini(s, id)
    ensures Concluded(s, id) && Quiet(s, id)
  {}

  /** Its call returns: the delivery completes and ends all its admissions. */
  lemma Through(expireEvery: nat, item: Item, e: Entry, lease: A.Lease, shared: Shared)
    returns (b: Point, e': Entry, shared': Shared)
    requires InTime(shared.admission, ApifyInput(item.id), lease) && D.NoGemini(shared.admission, item.id)
    requires e.gemini.None? && e.effects == 0 && !e.terminal && FreeBut(shared.slots, None)
    requires item.id.role.Paid? ==> |ActiveKeys(shared.admission)| <= 8
    ensures Path(expireEvery, item, Point(e, CallingApify(lease), shared), b) && b.shared == shared'
    ensures Resume(expireEvery, item, b.entry, b.stage, shared', TOKEN) == Outcome(e', shared', Finish)
    ensures !b.stage.Leaving? && e'.terminal && e'.expired == e.expired
    ensures Concluded(shared'.admission, item.id) && Quiet(shared'.admission, item.id)
    ensures Apart(shared.admission, shared'.admission, item.id) && FreeBut(shared'.slots, None)
    ensures ActiveKeys(shared'.admission) == ActiveKeys(shared.admission) - {ApifyInput(item.id).key}
  {
    var id, called := item.id, Called(item.id, e);
    var s' := FromApify(expireEvery, item, e, lease, shared);
    var after := With(shared, s');
    OnlyOwn(shared.admission, s', id, ApifyInput(id).key);
    if id.role.Preflight? {
      b, e', shared' := Point(called, Returned, after), called, after;
      PreflightConcluded(s', id);
    } else {
      SubsetIsSmaller(ActiveKeys(s') + {ApifyInput(id).key}, ActiveKeys(shared.admission));
      shared' := ThroughGemini(expireEvery, item, called, after, None);
      b, e' := Point(Generated(called), GeminiDone, shared'), Terminalized(Generated(called));
      Joined(expireEvery, item, Point(e, CallingApify(lease), shared), Point(called, Returned, after), b);
      LastOfPaid(expireEvery, item, Generated(called), shared');
      StaysFree(after, shared', None, id);
    }
  }

  lemma Fewer(role: Role, p: Pool, s: A.State, items: seq<Item>, leases: seq<A.Lease>, x: Item)
    requires |items| > 0 && x == items[|items| - 1] && |leases| == |items| <= |p.workers| && |items| <= Limit(role)
    requires Distinct(items) && p.workers[|items| - 1].Idle?
    requires forall i :: 0 <= i < |items| - 1 ==> Works(role, p, s, i, items[i], leases[i])
    requires forall i :: |items| <= i < |p.workers| ==> p.workers[i].Idle?
    requires forall id: Id :: id.role == role && !Among(items, id) && id != x.id ==> Open(EntryOf(p, id), s, id)
    requires Open(EntryOf(p, x.id), s, x.id) && ActiveKeys(s) == Keys(items) - {ApifyInput(x.id).key}
    ensures Stacked(role, p, s, items[..|items| - 1], leases[..|items| - 1])
  {
    var shorter := items[..|items| - 1];
    assert items == shorter + [x];
    KeyIsNew(shorter, x);
    forall id: Id | id.role == role && !Among(shorter, id) ensures Open(EntryOf(p, id), s, id) {
      assert forall i :: 0 <= i < |shorter| ==> shorter[i] == items[i];
    }
  }

  lemma LastIsReady(role: Role, p: Pool, s: A.State, items: seq<Item>, leases: seq<A.Lease>)
    requires Stacked(role, p, s, items, leases) && |items| > 0
    ensures Works(role, p, s, |items| - 1, items[|items| - 1], leases[|items| - 1])
    ensures items[|items| - 1].id.role.Paid? ==> |ActiveKeys(s)| <= 8
  {
    KeysCount(items);
  }

  /** The last worker completes its delivery and is idle again. */
  lemma Leaves(expireEvery: nat, start: System, role: Role, p: Pool, shared: Shared, items: seq<Item>,
               leases: seq<A.Lease>) returns (p': Pool, shared': Shared)
    requires Crowd(expireEvery, start, role, p, shared, items, leases) && |items| > 0
    ensures Crowd(expireEvery, start, role, p', shared', items[..|items| - 1], leases[..|items| - 1])
    ensures p'.queue == p.queue && |p'.workers| == |p.workers|
    ensures shared'.admission.pendingTotal == shared.admission.pendingTotal
  {
    var x, lease := items[|items| - 1], leases[|items| - 1];
    LastIsReady(role, p, shared.admission, items, leases);
    var b, e';
    b, e', shared' := Through(expireEvery, x, EntryOf(p, x.id), lease, shared);
    var o := Outcome(e', shared', Finish);
    p' := Concludes(expireEvery, start, role, p, shared, items, leases, x, lease, b, o);
    LeavesStack(role, p, shared.admission, p', shared'.admission, items, leases, e');
  }

  lemma LeavesStack(role: Role, p: Pool, s: A.State, p': Pool, s': A.State, items: seq<Item>, leases: seq<A.Lease>,
                    e: Entry)
    requires Stacked(role, p, s, items, leases) && |items| > 0
    requires var x := items[|items| - 1];
      && Moved(p, p', |items| - 1, Idle, x.id, e, []) && e.terminal
      && Apart(s, s', x.id) && Concluded(s', x.id) && Quiet(s', x.id)
      && ActiveKeys(s') == ActiveKeys(s) - {ApifyInput(x.id).key}
    ensures Stacked(role, p', s', items[..|items| - 1], leases[..|items| - 1])
  {
    var x := items[|items| - 1];
    assert Works(role, p, s, |items| - 1, x, leases[|items| - 1]);
    StillStacked(role, p, s, p', s', items, leases, x.id, |items| - 1);
    Fewer(role, p', s', items, leases, x);
  }

  lemma Concludes(expireEvery: nat, start: System, role: Role, p: Pool, shared: Shared, items: seq<Item>,
                  leases: seq<A.Lease>, x: Item, lease: A.Lease, b: Point, o: Outcome) returns (p': Pool)
    requires Crowd(expireEvery, start, role, p, shared, items, leases) && |items| > 0 && o.next.Finish?
    requires x == items[|items| - 1] && lease == leases[|items| - 1] && o.entry.expired == EntryOf(p, x.id).expired
    requires Path(expireEvery, x, Point(EntryOf(p, x.id), CallingApify(lease), shared), b) && !b.stage.Leaving?
    requires o == Resume(expireEvery, x, b.entry, b.stage, b.shared, TOKEN)
    ensures Can(expireEvery, start, role, p', o.shared) && Ordered(expireEvery, role, p')
    ensures Moved(p, p', |items| - 1, Idle, x.id, o.entry, [])
  {
    LastIsReady(role, p, shared.admission, items, leases);
    p' := FollowToEnd(expireEvery, start, role, p, |items| - 1, x,
                      Point(EntryOf(p, x.id), CallingApify(lease), shared), b, o);
    SameOrder(expireEvery, role, p, p', x.id);
  }

  lemma FollowToEnd(expireEvery: nat, start: System, role: Role, p: Pool, w: nat, x: Item, a: Point, b: Point,
                    o: Outcome) returns (p': Pool)
    requires Can(expireEvery, start, role, p, a.shared) && NoneParked(p.workers)
    requires w < |p.workers| && p.workers[w] == Busy(x, a.stage) && a.entry == EntryOf(p, x.id)
    requires Path(expireEvery, x, a, b) && !b.stage.Leaving? && o.next.Finish?
    requires o == Resume(expireEvery, x, b.entry, b.stage, b.shared, TOKEN)
    ensures Can(expireEvery, start, role, p', o.shared) && Moved(p, p', w, Idle, x.id, o.entry, [])
  {
    var q := Follow(expireEvery, start, role, p, w, x, a, b);
    p' := Ends(expireEvery, start, role, q, b.shared, w, x, b.stage, o);
    assert p'.workers == p.workers[w := Idle] && p'.queue == p.queue;
  }

  lemma SameOrder(expireEvery: nat, role: Role, p: Pool, p': Pool, id: Id)
    requires Ordered(expireEvery, role, p) && NoneParked(p'.workers)
    requires p'.queue == p.queue && p'.cursor == p.cursor && p'.taken == p.taken
    requires EntryOf(p', id).expired == EntryOf(p, id).expired
    requires forall other :: other != id ==> EntryOf(p', other) == EntryOf(p, other)
    ensures Ordered(expireEvery, role, p')
  {
    forall i | p'.cursor <= i < |p'.queue|
      ensures p'.queue[i].id.role == role && FirstOrFree(expireEvery, p', p'.queue[i])
    {
      assert FirstOrFree(expireEvery, p, p.queue[i]);
    }
  }

  // ---- The whole run ----

  lemma {:induction false} StackUp(expireEvery: nat, start: System, role: Role, p: Pool, shared: Shared,
                                   items: seq<Item>, leases: seq<A.Lease>, n: nat)
    returns (p': Pool, shared': Shared, all: seq<A.Lease>)
    requires Crowd(expireEvery, start, role, p, shared, items, leases)
    requires |items| == p.cursor <= n <= Limit(role) && n < |p.queue| && n < |p.workers| && items == p.queue[..p.cursor]
    requires forall i, j :: 0 <= i <= n && 0 <= j <= n && p.queue[i].id == p.queue[j].id ==> i == j
    requires forall i :: p.cursor <= i <= n ==>
      !Eligible(expireEvery, p.queue[i].id) && !EntryOf(p, p.queue[i].id).terminal
    requires ApifyInput(p.queue[n].id).key !in shared.admission.leases
    ensures Crowd(expireEvery, start, role, p', shared', p.queue[..n], all)
    ensures ApifyInput(p.queue[n].id).key !in shared'.admission.leases
    ensures p'.queue == p.queue && p'.cursor == n && |p'.workers| == |p.workers|
    ensures !EntryOf(p', p.queue[n].id).terminal
    ensures shared'.admission.pendingTotal == shared.admission.pendingTotal
    decreases n - p.cursor
  {
    if p.cursor == n {
      p', shared', all := p, shared, leases;
    } else {
      var q, given, lease := Joins(expireEvery, start, role, p, shared, items, leases);
      assert items + [p.queue[p.cursor]] == q.queue[..q.cursor];
      IdentitiesAreDistinct(p.queue[p.cursor].id, p.queue[n].id, SlotLease(0, TOKEN, 0), SlotLease(0, TOKEN, 0));
      p', shared', all := StackUp(expireEvery, start, role, q, given, items + [p.queue[p.cursor]], leases + [lease], n);
    }
  }

  lemma {:induction false} Unstack(expireEvery: nat, start: System, role: Role, p: Pool, shared: Shared,
                                   items: seq<Item>, leases: seq<A.Lease>) returns (p': Pool, shared': Shared)
    requires Crowd(expireEvery, start, role, p, shared, items, leases)
    ensures Crowd(expireEvery, start, role, p', shared', [], [])
    ensures p'.queue == p.queue && |p'.workers| == |p.workers|
    ensures shared'.admission.pendingTotal == shared.admission.pendingTotal
    decreases |items|
  {
    if items == [] {
      p', shared' := p, shared;
    } else {
      var q, given := Leaves(expireEvery, start, role, p, shared, items, leases);
      p', shared' := Unstack(expireEvery, start, role, q, given, items[..|items| - 1], leases[..|items| - 1]);
    }
  }

  lemma EmptyIsCalm(expireEvery: nat, start: System, role: Role, p: Pool, shared: Shared)
    requires Ordered(expireEvery, role, p) && FreeBut(shared.slots, None)
    ensures Stacked(role, p, shared.admission, [], []) ==> Calm(expireEvery, role, p, shared, None)
    ensures (&& Calm(expireEvery, role, p, shared, None) && ActiveKeys(shared.admission) == {}
             && forall v :: 0 <= v < |p.workers| ==> p.workers[v].Idle?) ==>
      Stacked(role, p, shared.admission, [], [])
  {
    assert Keys([]) == {};
    assert forall id :: !Among([], id);
  }

  /** As many ids as the role may have leases, and one more, stand first in the queue, all different and
      none of them eligible for the expiry path. */
  ghost predicate Crowded(expireEvery: nat, start: System, role: Role) {
    var p, n := PoolOf(start, role), Limit(role);
    && |p.workers| > n && |p.queue| > n
    && (forall i, j :: 0 <= i <= n && 0 <= j <= n && p.queue[i].id == p.queue[j].id ==> i == j)
    && (forall i :: 0 <= i <= n ==> !Eligible(expireEvery, p.queue[i].id))
  }

  /** However the drain is launched with more workers than its role may have leases: some run denies one
      delivery, queues it again, and returns with every accepted id terminal, that one included, and all
      its admissions ended for good. */
  lemma DeniedIsServed(expireEvery: nat, start: System, role: Role) returns (events: seq<Event>, s: System)
    requires Planned(start, role) && Crowded(expireEvery, start, role)
    ensures Reaches(expireEvery, start, events, s) && AllExited(PoolOf(s, role))
    ensures s.shared.admission.pendingTotal == 1
    ensures PoolOf(start, role).queue + [PoolOf(start, role).queue[Limit(role)].(attempt := 1)] <= PoolOf(s, role).queue
    ensures Terminal(PoolOf(s, role)) == Accepted(PoolOf(start, role).queue)
    ensures forall id :: id in Accepted(PoolOf(start, role).queue) ==> Concluded(s.shared.admission, id)
  {
    var p, n := PoolOf(start, role), Limit(role);
    PlannedIsCalm(expireEvery, start, role);
    EmptyIsCalm(expireEvery, start, role, p, start.shared);
    var q, shared, leases := StackUp(expireEvery, start, role, p, start.shared, [], [], n);
    q, shared := IsDenied(expireEvery, start, role, q, shared, p.queue[..n], leases);
    q, shared := Unstack(expireEvery, start, role, q, shared, p.queue[..n], leases);
    EmptyIsCalm(expireEvery, start, role, q, shared);
    events, s := CalmReturns(expireEvery, start, role, q, shared, |p.queue|);
  }
}
