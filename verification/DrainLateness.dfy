/** Why the leases have to last: a delivery whose lease runs out during its Apify call completes all the
    same, and leaves its admission as one rejected before its start. */
module DrainLateness {
  import opened Basics
  import opened Delivery
  import opened Drain
  import opened DrainAdmissions
  import opened DrainDeliveries
  import opened DrainRaces
  import opened DrainSystem
  import A = Admission

  /** Time passes and nobody moves. */
  lemma Passes(expireEvery: nat, start: System, role: Role, p: Pool, shared: Shared, ms: nat)
    requires Can(expireEvery, start, role, p, shared)
    ensures Can(expireEvery, start, role, p, With(shared, A.Apply(shared.admission, A.Tick(ms)).0))
  {
    var here := Put(start, role, p, shared);
    var events :| Reaches(expireEvery, start, events, here);
    Extend(expireEvery, start, events, here, Outside(A.Tick(ms)));
    assert Advance(expireEvery, here, Outside(A.Tick(ms)))
        == Put(start, role, p, With(shared, A.Apply(shared.admission, A.Tick(ms)).0));
  }

  /** A lease that has run out is refused at its release, recovered and resolved. */
  lemma LateLease(s: A.State, input: A.Input, lease: A.Lease) returns (s2: A.State, s3: A.State)
    requires Held(s, input, lease) && lease.expiresAt <= s.now
    ensures A.ApplyRelease(s, input.key, lease.token, lease.fence, A.Terminal) == (s, A.LeaseExpired)
    ensures A.ApplyRecover(s, input.key, TOKEN) == (s2, A.Answer(true))
    ensures A.ApplyResolve(s2, input.key) == (s3, A.Answer(true)) && A.Regrantable(s3, input.key)
  {
    s2 := A.ApplyRecover(s, input.key, TOKEN).0;
    s3 := A.ApplyResolve(s2, input.key).0;
  }

  /** A preflight delivery has two minutes for its Apify stage, a paid one half a minute, and four minutes for
      its Gemini stage: its lease is out exactly when they have passed since its first grant. */
  lemma LateExactly(s: A.State, id: Id, slot: SlotLease, token: Uuid, ms: nat)
    ensures var (t, reply) := A.ApplyAcquire(s, ApifyInput(id), token);
      reply.Granted? ==>
        (RunOut(A.Apply(t, A.Tick(ms)).0, ApifyInput(id).key, reply.lease) <==>
           ms >= if id.role.Preflight? then 120_000 else 30_000)
    ensures var (t, reply) := A.ApplyAcquire(s, GeminiInput(id, slot), token);
      reply.Granted? ==> (RunOut(A.Apply(t, A.Tick(ms)).0, GeminiInput(id, slot).key, reply.lease) <==> ms >= 240_000)
  {}

  lemma FromLateApify(expireEvery: nat, item: Item, e: Entry, lease: A.Lease, shared: Shared) returns (s': A.State)
    requires Held(shared.admission, ApifyInput(item.id), lease) && lease.expiresAt <= shared.admission.now
    ensures Path(expireEvery, item, Point(e, CallingApify(lease), shared),
                 Point(Called(item.id, e), Returned, With(shared, s')))
    ensures A.Regrantable(s', ApifyInput(item.id).key)
  {
    var e' := if item.id.role.Preflight? then Terminalized(e) else e;
    var s2;
    s2, s' := LateLease(shared.admission, ApifyInput(item.id), lease);
    var a, b := Point(e, CallingApify(lease), shared), Point(e', Releasing(lease, Complete), shared);
    var c, d := Point(e', Recovering(lease, Complete), shared), Point(e', Resolving(lease, Complete), With(shared, s2));
    Hop(expireEvery, item, a, b);
    assert With(shared, shared.admission) == shared;
    Then(expireEvery, item, a, b, c);
    Then(expireEvery, item, a, c, d);
    Late(expireEvery, item, e', lease, shared, s2, s');
    Joined(expireEvery, item, a, d, Point(Called(item.id, e), Returned, With(shared, s')));
  }

  lemma Late(expireEvery: nat, item: Item, e: Entry, lease: A.Lease, shared: Shared, s2: A.State, s3: A.State)
    requires A.ApplyResolve(s2, ApifyInput(item.id).key) == (s3, A.Answer(true))
    ensures Path(expireEvery, item, Point(e, Resolving(lease, Complete), With(shared, s2)),
                 Point(e.(provider := Some(Succeeded)), Returned, With(shared, s3)))
  {
    var a, b := Point(e, Resolving(lease, Complete), With(shared, s2)), Point(e, Settled(Complete), With(shared, s3));
    Hop(expireEvery, item, a, b);
    Then(expireEvery, item, a, b, Point(e.(provider := Some(Succeeded)), Returned, With(shared, s3)));
  }

  /** Every drain launched with a first item outside the expiry path has a run in which that item's Apify
      run is recorded as succeeded while its admission can be granted again. */
  lemma LateSuccessIsRegrantable(expireEvery: nat, start: System, role: Role) returns (events: seq<Event>, s: System)
    requires Planned(start, role) && |PoolOf(start, role).workers| >= 1 && |PoolOf(start, role).queue| >= 1
    requires !Eligible(expireEvery, PoolOf(start, role).queue[0].id)
    ensures Reaches(expireEvery, start, events, s)
    ensures var id := PoolOf(start, role).queue[0].id;
      EntryOf(PoolOf(s, role), id).provider == Some(Succeeded) && A.Regrantable(s.shared.admission, ApifyInput(id).key)
  {
    var p, x := PoolOf(start, role), PoolOf(start, role).queue[0];
    PlannedIsCalm(expireEvery, start, role);
    assert Open(EntryOf(p, x.id), start.shared.admission, x.id);
    var s1, lease := ToApify(expireEvery, x, BLANK, start.shared);
    var q := Takes(expireEvery, start, role, p, start.shared, 0);
    q := Follow(expireEvery, start, role, q, 0, x, Point(BLANK, Fresh, start.shared),
                Point(Started(BLANK), CallingApify(lease), With(start.shared, s1)));
    q, s1 := RunsOut(expireEvery, start, role, q, With(start.shared, s1), x, lease);
    s := Put(start, role, q, With(start.shared, s1));
    events :| Reaches(expireEvery, start, events, s);
  }

  lemma RunsOut(expireEvery: nat, start: System, role: Role, p: Pool, shared: Shared, x: Item, lease: A.Lease)
    returns (p': Pool, s': A.State)
    requires Can(expireEvery, start, role, p, shared) && |p.workers| >= 1
    requires p.workers[0] == Busy(x, CallingApify(lease)) && InTime(shared.admission, ApifyInput(x.id), lease)
    ensures Can(expireEvery, start, role, p', With(shared, s'))
    ensures EntryOf(p', x.id).provider == Some(Succeeded) && A.Regrantable(s', ApifyInput(x.id).key)
  {
    var ms: nat := lease.expiresAt - shared.admission.now;
    var later := With(shared, A.Apply(shared.admission, A.Tick(ms)).0);
    Passes(expireEvery, start, role, p, shared, ms);
    s' := FromLateApify(expireEvery, x, EntryOf(p, x.id), lease, later);
    p' := Follow(expireEvery, start, role, p, 0, x, Point(EntryOf(p, x.id), CallingApify(lease), later),
                 Point(Called(x.id, EntryOf(p, x.id)), Returned, With(later, s')));
    assert With(later, s') == With(shared, s');
  }
}
