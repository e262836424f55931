/** What every run of the admission store keeps: capacity in its first-grant form,
    rising fences, absorbing terminal releases, high-water marks and conservation. */
module AdmissionRuns {
  import opened Admission
  import opened Basics

  // ---- Capacity ----

  /** Active leases of a role and provider that never took the re-grant branch. */
  function FirstGrants(s: State, role: Role, provider: Provider): set<Key> {
    ActiveGlobal(s.leases, role, provider) - s.regranted
  }

  /** The same for the non-Gemini leases of one budget. */
  function FirstGrantsInBudget(s: State, budget: string): set<Key> {
    set k | k in ActiveBudget(s.leases, budget) - s.regranted && !s.leases[k].input.key.provider.Gemini?
  }

  ghost predicate WithinCapacity(s: State) {
    && (forall role, provider :: |FirstGrants(s, role, provider)| <= GlobalLimit(role, provider))
    && (forall budget :: IsRelationship(budget) ==> |FirstGrantsInBudget(s, budget)| <= 4)
  }

  // ---- What one operation does to one lease ----

  /** A first grant: the identity had no lease and there was room for it. */
  ghost predicate Born(s: State, s': State, op: Op, k: Key) {
    && k !in s.leases && k in s'.leases
    && op.Acquire? && op.input.key == k && !Full(s, op.input)
    && s'.leases[k].input == op.input && s'.leases[k].fence == 1 && s'.leases[k].status.Leased?
  }

  /** A re-grant after a pre-start rejection; capacity is not looked at. */
  ghost predicate Reborn(s: State, s': State, op: Op, k: Key) {
    && Regrantable(s, k) && k in s'.leases
    && op.Acquire? && op.input.key == k && k in s'.regranted
    && s'.leases[k].input == op.input && s'.leases[k].status.Leased?
    && s'.leases[k].fence == s.leases[k].fence + 1
  }

  /** Any other change: the lease never becomes active again and its fence never falls. */
  ghost predicate Carried(s: State, s': State, k: Key) {
    && k in s.leases && k in s'.leases
    && s'.leases[k].input == s.leases[k].input
    && (Active(s'.leases[k]) ==> Active(s.leases[k]))
    && s.leases[k].fence <= s'.leases[k].fence
    && (s'.leases[k].token != s.leases[k].token ==> s.leases[k].fence < s'.leases[k].fence)
    && (k in s'.regranted <==> k in s.regranted)
  }

  lemma StepShape(s: State, op: Op, k: Key)
    ensures var s' := Apply(s, op).0;
      || (k !in s.leases && k !in s'.leases)
      || Born(s, s', op, k) || Reborn(s, s', op, k) || Carried(s, s', k)
    ensures s.regranted <= Apply(s, op).0.regranted
  {}

  lemma GlobalCapacityStep(s: State, op: Op, role: Role, provider: Provider)
    requires |FirstGrants(s, role, provider)| <= GlobalLimit(role, provider)
    ensures |FirstGrants(Apply(s, op).0, role, provider)| <= GlobalLimit(role, provider)
  {
    var s' := Apply(s, op).0;
    var before, after := FirstGrants(s, role, provider), FirstGrants(s', role, provider);
    forall k | k in after
      ensures k in before
        || (Born(s, s', op, k) && |ActiveGlobal(s.leases, role, provider)| < GlobalLimit(role, provider))
    {
      StepShape(s, op, k);
    }
    if born :| born in after && born !in before {
      var room := ActiveGlobal(s.leases, role, provider);
      assert after <= room + {born} by {
        forall k | k in after && k !in before ensures k == born { StepShape(s, op, k); }
      }
      SubsetIsSmaller(after, room + {born});
    } else {
      SubsetIsSmaller(after, before);
    }
  }

  lemma BudgetCapacityStep(s: State, op: Op, budget: string)
    requires IsRelationship(budget)
    requires |FirstGrantsInBudget(s, budget)| <= 4
    ensures |FirstGrantsInBudget(Apply(s, op).0, budget)| <= 4
  {
    var s' := Apply(s, op).0;
    var before, after := FirstGrantsInBudget(s, budget), FirstGrantsInBudget(s', budget);
    forall k | k in after
      ensures k in before || (Born(s, s', op, k) && |ActiveBudget(s.leases, budget)| < 4)
    {
      StepShape(s, op, k);
    }
    if born :| born in after && born !in before {
      var room := ActiveBudget(s.leases, budget);
      assert after <= room + {born} by {
        forall k | k in after && k !in before ensures k == born { StepShape(s, op, k); }
      }
      SubsetIsSmaller(after, room + {born});
    } else {
      SubsetIsSmaller(after, before);
    }
  }

  lemma {:induction false} RunKeepsCapacity(s: State, ops: seq<Op>)
    requires WithinCapacity(s)
    ensures WithinCapacity(Run(s, ops))
    decreases ops
  {
    if ops != [] {
      var s' := Apply(s, ops[0]).0;
      forall role, provider ensures |FirstGrants(s', role, provider)| <= GlobalLimit(role, provider) {
        GlobalCapacityStep(s, ops[0], role, provider);
      }
      forall budget | IsRelationship(budget) ensures |FirstGrantsInBudget(s', budget)| <= 4 {
        BudgetCapacityStep(s, ops[0], budget);
      }
      RunKeepsCapacity(s', ops[1..]);
    }
  }

  ghost predicate WithinNumbers(s: State) {
    && |FirstGrants(s, Preflight, Apify)| <= 32 && |FirstGrants(s, Paid, Apify)| <= 8
    && (forall role :: |FirstGrants(s, role, Gemini)| <= 8)
  }

  lemma CapacityInNumbers(s: State)
    requires WithinCapacity(s)
    ensures WithinNumbers(s)
  {
    assert GlobalLimit(Preflight, Apify) == 32 && GlobalLimit(Paid, Apify) == 8;
    forall role ensures |FirstGrants(s, role, Gemini)| <= 8 { assert GlobalLimit(role, Gemini) == 8; }
  }

  /** Every reachable state is within capacity, expired and recovering leases included: 32 preflight leases
      at Apify, 8 paid ones, 8 of each role at Gemini, 4 in any relationship budget; and while nothing was
      re-granted that bounds all active leases. */
  lemma CapacityHolds(start: State, ops: seq<Op>)
    requires Init(start)
    ensures var s := Run(start, ops);
      && WithinCapacity(s)
      && WithinNumbers(s)
      && (s.regranted == {} ==>
            forall role, provider :: |ActiveGlobal(s.leases, role, provider)| <= GlobalLimit(role, provider))
  {
    var s := Run(start, ops);
    assert WithinCapacity(start) by {
      forall role, provider ensures FirstGrants(start, role, provider) == {} {}
      forall budget ensures FirstGrantsInBudget(start, budget) == {} {}
    }
    RunKeepsCapacity(start, ops);
    CapacityInNumbers(s);
    if s.regranted == {} {
      forall role, provider
        ensures |ActiveGlobal(s.leases, role, provider)| <= GlobalLimit(role, provider)
      {
        assert ActiveGlobal(s.leases, role, provider) == FirstGrants(s, role, provider);
      }
    }
  }

  // ---- Fencing ----

  /** From `s` to `t` every lease survives, no fence falls, and a changed token has a larger fence. */
  ghost predicate Fenced(s: State, t: State) {
    forall k :: k in s.leases ==>
      && k in t.leases
      && s.leases[k].fence <= t.leases[k].fence
      && (t.leases[k].token != s.leases[k].token ==> s.leases[k].fence < t.leases[k].fence)
  }

  lemma {:induction false} RunIsFenced(s: State, ops: seq<Op>)
    ensures Fenced(s, Run(s, ops))
    decreases ops
  {
    if ops != [] {
      var s' := Apply(s, ops[0]).0;
      forall k | k in s.leases
        ensures k in s'.leases && s.leases[k].fence <= s'.leases[k].fence
        ensures s'.leases[k].token != s.leases[k].token ==> s.leases[k].fence < s'.leases[k].fence
      {
        StepShape(s, ops[0], k);
      }
      RunIsFenced(s', ops[1..]);
    }
  }

  /** A (token, fence) pair that a recovery or re-grant has superseded is refused by every
      later renew and release, which leave the store untouched. */
  lemma SupersededIsRefused(s: State, later: seq<Op>, k: Key, token: Uuid, fence: nat, op: Op)
    requires k in s.leases && fence < s.leases[k].fence
    requires (op.Renew? && op.key == k && op.token == token && op.fence == fence)
          || (op.Release? && op.key == k && op.token == token && op.fence == fence)
    ensures Apply(Run(s, later), op) == (Run(s, later), FenceMismatch)
  {
    RunIsFenced(s, later);
  }

  /** A token and fence are accepted, by a release or a renewal, only if they are exactly the pair of the last
      grant or recovery of the identity; any other pair changes nothing. */
  lemma OnlyTheHolderIsServed(s: State, k: Key, token: Uuid, fence: nat, reason: Reason, seconds: nat)
    requires k !in s.leases || s.leases[k].token != token || s.leases[k].fence != fence
    ensures Apply(s, Release(k, token, fence, reason)) == (s, FenceMismatch)
    ensures Apply(s, Renew(k, token, fence, seconds)) == (s, FenceMismatch)
  {}

  // ---- Terminal release ----

  ghost predicate ReleasedTerminal(s: State, k: Key) {
    k in s.leases && s.leases[k].status == Released(Terminal)
  }

  /** Once terminally released, an identity stays so under every later sequence of
      operations, with the same fence and token. */
  lemma {:induction false} TerminalIsAbsorbing(s: State, ops: seq<Op>, k: Key)
    requires ReleasedTerminal(s, k)
    ensures var t := Run(s, ops);
      ReleasedTerminal(t, k) && t.leases[k].fence == s.leases[k].fence && t.leases[k].token == s.leases[k].token
    decreases ops
  {
    if ops != [] {
      var s' := Apply(s, ops[0]).0;
      assert ReleasedTerminal(s', k) && s'.leases[k].fence == s.leases[k].fence
          && s'.leases[k].token == s.leases[k].token;
      TerminalIsAbsorbing(s', ops[1..], k);
    }
  }

  /** Repeating the exact release changes nothing and succeeds; acquiring again is a conflict. */
  lemma TerminalReplies(s: State, ops: seq<Op>, k: Key, input: Input, token: Uuid, reason: Reason)
    requires ReleasedTerminal(s, k) && input.key == k
    ensures var t := Run(s, ops);
      && Apply(t, Release(k, s.leases[k].token, s.leases[k].fence, reason)) == (t, Done)
      && Apply(t, Acquire(input, token)) == (t, IdentityConflict)
  {
    TerminalIsAbsorbing(s, ops, k);
  }

  // ---- High-water mark ----

  /** The largest number of active leases of a budget in any state of the run. */
  function Peak(s: State, ops: seq<Op>, budget: string): nat
    decreases ops
  {
    var here := |ActiveBudget(s.leases, budget)|;
    if ops == [] then here else Max(here, Peak(Apply(s, ops[0]).0, ops[1..], budget))
  }

  lemma PeakStep(s: State, op: Op, budget: string)
    requires |ActiveBudget(s.leases, budget)| <= MaxObserved(s.peaks, budget)
    ensures var s' := Apply(s, op).0;
      MaxObserved(s'.peaks, budget) == Max(MaxObserved(s.peaks, budget), |ActiveBudget(s'.leases, budget)|)
  {
    var s' := Apply(s, op).0;
    if op.Acquire? && s'.leases != s.leases {
      if op.input.budget != budget {
        SubsetIsSmaller(ActiveBudget(s'.leases, budget), ActiveBudget(s.leases, budget));
      }
    } else {
      forall k | k in ActiveBudget(s'.leases, budget) ensures k in ActiveBudget(s.leases, budget) {
        StepShape(s, op, k);
      }
      SubsetIsSmaller(ActiveBudget(s'.leases, budget), ActiveBudget(s.leases, budget));
    }
  }

  lemma {:induction false} RunRecordsPeak(s: State, ops: seq<Op>, budget: string)
    requires |ActiveBudget(s.leases, budget)| <= MaxObserved(s.peaks, budget)
    ensures MaxObserved(Run(s, ops).peaks, budget) == Max(MaxObserved(s.peaks, budget), Peak(s, ops, budget))
    decreases ops
  {
    if ops != [] {
      PeakStep(s, ops[0], budget);
      RunRecordsPeak(Apply(s, ops[0]).0, ops[1..], budget);
    }
  }

  /** `maxObservedBudget` reports exactly the peak over the whole history. */
  lemma ObservedIsPeak(start: State, ops: seq<Op>, budget: string)
    requires Init(start)
    ensures MaxObserved(Run(start, ops).peaks, budget) == Peak(start, ops, budget)
  {
    assert ActiveBudget(start.leases, budget) == {};
    RunRecordsPeak(start, ops, budget);
  }

  // ---- Conservation ----

  /** The sum of (fence - 1) over the leases. */
  ghost function Rotated(leases: map<Key, Lease>): int {
    if leases == map[] then 0
    else var k :| k in leases; leases[k].fence - 1 + Rotated(leases - {k})
  }

  lemma {:induction false} RotatedWithout(leases: map<Key, Lease>, k: Key)
    requires k in leases
    ensures Rotated(leases) == leases[k].fence - 1 + Rotated(leases - {k})
    decreases |leases|
  {
    var j :| j in leases && Rotated(leases) == leases[j].fence - 1 + Rotated(leases - {j});
    if j != k {
      RotatedWithout(leases - {j}, k);
      RotatedWithout(leases - {k}, j);
      assert leases - {j} - {k} == leases - {k} - {j};
    }
  }

  lemma RotatedUpdate(leases: map<Key, Lease>, k: Key, lease: Lease)
    ensures Rotated(leases[k := lease])
         == Rotated(leases) + lease.fence - (if k in leases then leases[k].fence else 1)
  {
    RotatedWithout(leases[k := lease], k);
    if k in leases {
      RotatedWithout(leases, k);
      assert leases[k := lease] - {k} == leases - {k};
    } else {
      assert leases[k := lease] - {k} == leases;
    }
  }

  ghost predicate Conserved(s: State) {
    && s.rotations == Rotated(s.leases)
    && s.rotations == s.recoveries + s.regrants
    && s.pendingTotal == s.pendingByRole.preflight + s.pendingByRole.paid + s.pendingByRole.gemini
  }

  /** How many operations of a run were re-grants, and how many were capacity denials. */
  function Regrants(s: State, ops: seq<Op>): nat
    decreases ops
  {
    if ops == [] then 0
    else (if ops[0].Acquire? && Regrantable(s, ops[0].input.key) then 1 else 0)
         + Regrants(Apply(s, ops[0]).0, ops[1..])
  }

  lemma ConservedStep(s: State, op: Op)
    requires Conserved(s)
    ensures Conserved(Apply(s, op).0)
  {
    var s' := Apply(s, op).0;
    match op
    case Tick(_) =>
    case Acquire(input, _) =>
      if s'.leases != s.leases { RotatedUpdate(s.leases, input.key, s'.leases[input.key]); }
    case Renew(key, _, _, _) =>
      if s'.leases != s.leases { RotatedUpdate(s.leases, key, s'.leases[key]); }
    case Release(key, _, _, _) =>
      if s'.leases != s.leases { RotatedUpdate(s.leases, key, s'.leases[key]); }
    case Recover(key, _) =>
      if s'.leases != s.leases { RotatedUpdate(s.leases, key, s'.leases[key]); }
    case Resolve(key) =>
      if s'.leases != s.leases { RotatedUpdate(s.leases, key, s'.leases[key]); }
    case Expire(key) =>
      if s'.leases != s.leases { RotatedUpdate(s.leases, key, s'.leases[key]); }
  }

  lemma RegrantStep(s: State, op: Op)
    ensures Apply(s, op).0.regrants
         == s.regrants + if op.Acquire? && Regrantable(s, op.input.key) then 1 else 0
  {}

  lemma {:induction false} RunConserves(s: State, ops: seq<Op>)
    requires Conserved(s)
    ensures Conserved(Run(s, ops))
    ensures Run(s, ops).regrants == s.regrants + Regrants(s, ops)
    decreases ops
  {
    if ops != [] {
      ConservedStep(s, ops[0]);
      RegrantStep(s, ops[0]);
      RunConserves(Apply(s, ops[0]).0, ops[1..]);
    }
  }

  /** In every reachable state the rotations are the sum of (fence - 1), the rotations that are
      not recoveries are exactly the re-grants of the run, and the denials add up by role. */
  lemma CountersConserved(start: State, ops: seq<Op>)
    requires Init(start)
    ensures var s := Run(start, ops);
      && s.rotations == Rotated(s.leases)
      && s.rotations - s.recoveries == Regrants(start, ops)
      && s.pendingTotal == s.pendingByRole.preflight + s.pendingByRole.paid + s.pendingByRole.gemini
  {
    RunConserves(start, ops);
  }

  /** How many acquires of a run were denied for want of room, for one kind of key. */
  function DenialsOf(s: State, ops: seq<Op>, kind: Key -> bool): nat
    decreases ops
  {
    if ops == [] then 0
    else (if DeniedNow(s, ops[0], kind) then 1 else 0) + DenialsOf(Apply(s, ops[0]).0, ops[1..], kind)
  }

  function PreflightApify(k: Key): bool { k.role.Preflight? && k.provider.Apify? }

  function PaidApify(k: Key): bool { k.role.Paid? && k.provider.Apify? }

  function AnyGemini(k: Key): bool { k.provider.Gemini? }

  /** An acquire for an identity without a lease that is told to wait. */
  predicate DeniedNow(s: State, op: Op, kind: Key -> bool) {
    op.Acquire? && op.input.key !in s.leases && Apply(s, op).1.CapacityPending? && kind(op.input.key)
  }

  lemma DenialStep(s: State, op: Op)
    ensures var p, q := s.pendingByRole, Apply(s, op).0.pendingByRole;
      && q.preflight == p.preflight + (if DeniedNow(s, op, PreflightApify) then 1 else 0)
      && q.paid == p.paid + (if DeniedNow(s, op, PaidApify) then 1 else 0)
      && q.gemini == p.gemini + if DeniedNow(s, op, AnyGemini) then 1 else 0
  {}

  lemma {:induction false} RunCountsDenials(s: State, ops: seq<Op>)
    ensures var p, q := s.pendingByRole, Run(s, ops).pendingByRole;
      && q.preflight == p.preflight + DenialsOf(s, ops, PreflightApify)
      && q.paid == p.paid + DenialsOf(s, ops, PaidApify)
      && q.gemini == p.gemini + DenialsOf(s, ops, AnyGemini)
    decreases ops
  {
    if ops != [] {
      DenialStep(s, ops[0]);
      RunCountsDenials(Apply(s, ops[0]).0, ops[1..]);
    }
  }

  function AnyKey(k: Key): bool { true }

  lemma {:induction false} DenialsAddUp(s: State, ops: seq<Op>)
    ensures DenialsOf(s, ops, AnyKey)
         == DenialsOf(s, ops, PreflightApify) + DenialsOf(s, ops, PaidApify) + DenialsOf(s, ops, AnyGemini)
    decreases ops
  {
    if ops != [] { DenialsAddUp(Apply(s, ops[0]).0, ops[1..]); }
  }

  /** The pending counters are the acquires of the run that were told to wait and whose identity had no
      lease, each counted under its own role or under Gemini; replays under recovery are not counted. */
  lemma DenialsAreCounted(start: State, ops: seq<Op>)
    requires Init(start)
    ensures Run(start, ops).pendingByRole
         == Pending(DenialsOf(start, ops, PreflightApify), DenialsOf(start, ops, PaidApify),
                    DenialsOf(start, ops, AnyGemini))
    ensures Run(start, ops).pendingTotal == DenialsOf(start, ops, AnyKey)
  {
    RunCountsDenials(start, ops);
    RunConserves(start, ops);
    DenialsAddUp(start, ops);
  }

  /** How many renewals of a run were answered. */
  function RenewalsOf(s: State, ops: seq<Op>): nat
    decreases ops
  {
    if ops == [] then 0
    else (if Apply(s, ops[0]).1.Renewed? then 1 else 0) + RenewalsOf(Apply(s, ops[0]).0, ops[1..])
  }

  lemma RenewalStep(s: State, op: Op)
    ensures Apply(s, op).0.renewals == s.renewals + if Apply(s, op).1.Renewed? then 1 else 0
  {}

  lemma {:induction false} RenewalsAreCounted(s: State, ops: seq<Op>)
    ensures Run(s, ops).renewals == s.renewals + RenewalsOf(s, ops)
    decreases ops
  {
    if ops != [] {
      RenewalStep(s, ops[0]);
      RenewalsAreCounted(Apply(s, ops[0]).0, ops[1..]);
    }
  }

  // ---- What a newcomer is told ----

  /** A lease is released in time. An identity without a lease is then granted exactly if, the released one
      not counted, its role and its budget are below their limits; otherwise it is told to wait, and it is
      never refused as a conflict. */
  lemma ReleaseMakesRoom(s: State, k: Key, reason: Reason, input: Input, token: Uuid)
    requires k in s.leases && s.leases[k].status.Leased? && s.leases[k].expiresAt > s.now
    requires input.key !in s.leases
    ensures var t := Apply(s, Release(k, s.leases[k].token, s.leases[k].fence, reason)).0;
            var reply := Apply(t, Acquire(input, token)).1;
      && (reply.Granted? <==>
            && |ActiveGlobal(s.leases, input.key.role, input.key.provider) - {k}|
               < GlobalLimit(input.key.role, input.key.provider)
            && |ActiveBudget(s.leases, input.budget) - {k}| < BudgetLimit(input))
      && (reply.Granted? || reply.CapacityPending?)
  {
    var t := Apply(s, Release(k, s.leases[k].token, s.leases[k].fence, reason)).0;
    assert ActiveGlobal(t.leases, input.key.role, input.key.provider)
        == ActiveGlobal(s.leases, input.key.role, input.key.provider) - {k};
    assert ActiveBudget(t.leases, input.budget) == ActiveBudget(s.leases, input.budget) - {k};
  }

  lemma TakesPlace(s: State, input: Input, token: Uuid)
    requires input.key !in s.leases && input.seconds > 0
    ensures var (t, reply) := Apply(s, Acquire(input, token));
      && !reply.IdentityConflict? && (reply.CapacityPending? ==> t.leases == s.leases && t.now == s.now)
      && (reply.Granted? ==>
            && t.leases == s.leases[input.key := reply.lease] && t.now == s.now && !Full(s, input)
            && reply.lease.input == input && reply.lease.status.Leased? && reply.lease.expiresAt > s.now)
  {}

  lemma WithoutNewcomer(leases: map<Key, Lease>, k: Key, lease: Lease, role: Role, provider: Provider, budget: string)
    requires k !in leases
    ensures ActiveGlobal(leases[k := lease], role, provider) - {k} == ActiveGlobal(leases, role, provider)
    ensures ActiveBudget(leases[k := lease], budget) - {k} == ActiveBudget(leases, budget)
  {}

  /** So of two identities without a lease that want the last place, the one told to wait is granted once
      the other is released. */
  lemma DeniedIsGrantedLater(s: State, first: Input, second: Input, a: Uuid, b: Uuid, reason: Reason)
    requires first.key !in s.leases && second.key !in s.leases && first.key != second.key
    requires first.seconds > 0 && second.seconds > 0
    requires first.key.role == second.key.role && first.key.provider == second.key.provider
    requires first.budget == second.budget
    ensures var (t, granted) := Apply(s, Acquire(first, a));
            var (u, reply) := Apply(t, Acquire(second, b));
      && !granted.IdentityConflict? && !reply.IdentityConflict?
      && (granted.Granted? && reply.CapacityPending? ==>
            var v := Apply(u, Release(first.key, granted.lease.token, granted.lease.fence, reason)).0;
            Apply(v, Acquire(second, b)).1.Granted?)
  {
    TakesPlace(s, first, a);
    var (t, granted) := Apply(s, Acquire(first, a));
    TakesPlace(t, second, b);
    var (u, reply) := Apply(t, Acquire(second, b));
    if granted.Granted? && reply.CapacityPending? {
      WithoutNewcomer(s.leases, first.key, granted.lease, first.key.role, first.key.provider, first.budget);
      ReleaseMakesRoom(u, first.key, reason, second, b);
    }
  }

  // ---- The life of a lease ----

  /** A lease just granted or renewed for some seconds: until they have passed its holder can release it
      and recovery is refused; from then on it is the other way round, recovery raises the fence, and
      the holder is refused for good. */
  lemma LeaseLivesForItsSeconds(s: State, op: Op, ms: nat, reason: Reason, token: Uuid, later: seq<Op>)
    requires (op.Acquire? && Apply(s, op).1.Granted?) || (op.Renew? && Apply(s, op).1.Renewed?)
    ensures var seconds := if op.Acquire? then op.input.seconds else op.seconds;
            var key := if op.Acquire? then op.input.key else op.key;
            var held := Apply(s, op).1.lease;
            var t := Apply(Apply(s, op).0, Tick(ms)).0;
            var release := Release(key, held.token, held.fence, reason);
      if ms < seconds * 1000 then
        && Apply(t, release) == (t.(leases := t.leases[key := held.(status := Released(reason))]), Done)
        && Apply(t, Recover(key, token)) == (t, Answer(false))
      else
        && Apply(t, release) == (t, LeaseExpired)
        && Apply(t, Recover(key, token)).1 == Answer(true)
        && var u := Run(Apply(t, Recover(key, token)).0, later); Apply(u, release) == (u, FenceMismatch)
  {
    var key := if op.Acquire? then op.input.key else op.key;
    var held := Apply(s, op).1.lease;
    var t := Apply(Apply(s, op).0, Tick(ms)).0;
    var r := Apply(t, Recover(key, token)).0;
    if held.expiresAt <= t.now {
      SupersededIsRefused(r, later, key, held.token, held.fence, Release(key, held.token, held.fence, reason));
    }
  }

  /** As long as nobody has recovered it a lease can be renewed, however long it has run out, and then lives
      again: it can be released and is not recovered before the new seconds have passed. */
  lemma RenewalRevives(s: State, k: Key, overdue: nat, seconds: nat, ms: nat, reason: Reason, token: Uuid)
    requires k in s.leases && s.leases[k].status.Leased? && ms < seconds * 1000
    ensures var held := s.leases[k];
            var renewed := Apply(Apply(s, Tick(overdue)).0, Renew(k, held.token, held.fence, seconds));
            var t := Apply(renewed.0, Tick(ms)).0;
      && renewed.1.Renewed? && Apply(t, Release(k, held.token, held.fence, reason)).1 == Done
      && Apply(t, Recover(k, token)) == (t, Answer(false))
  {
    LeaseLivesForItsSeconds(Apply(s, Tick(overdue)).0, Renew(k, s.leases[k].token, s.leases[k].fence, seconds),
                            ms, reason, token, []);
  }

  // ---- What the recovery page is for ----

  function OverdueKeys(s: State): set<Key> { set k | k in s.leases && Overdue(s.leases, s.now, k) }

  function KeysOf(ops: seq<Op>): set<Key> { set i | 0 <= i < |ops| && ops[i].Recover? :: ops[i].key }

  /** The page lists exactly the identities that recovery rotates, and recovery raises the listed fence by
      one and takes the identity off the page. */
  lemma ListedIsRecovered(s: State, key: Key, token: Uuid)
    ensures var (s', reply) := ApplyRecover(s, key, token);
      && (Overdue(s.leases, s.now, key) <==> reply == Answer(true) && s'.rotations == s.rotations + 1)
      && (Overdue(s.leases, s.now, key) ==> s'.leases[key].fence == Listed(key, s.leases[key]).fence + 1)
      && OverdueKeys(s') == OverdueKeys(s) - {key}
      && s'.recoveries == s.recoveries + |OverdueKeys(s) * {key}|
  {
    var s' := ApplyRecover(s, key, token).0;
    assert OverdueKeys(s') == OverdueKeys(s) - {key};
    assert OverdueKeys(s) * {key} == if Overdue(s.leases, s.now, key) then {key} else {};
  }

  /** Recovering identities in any order, each as often as one likes, takes exactly these off the page and
      counts each overdue one of them once. */
  lemma {:induction false} RecoveryClearsPage(s: State, ops: seq<Op>)
    requires forall i :: 0 <= i < |ops| ==> ops[i].Recover?
    ensures OverdueKeys(Run(s, ops)) == OverdueKeys(s) - KeysOf(ops)
    ensures Run(s, ops).recoveries == s.recoveries + |OverdueKeys(s) * KeysOf(ops)|
    decreases ops
  {
    if ops == [] {
      assert KeysOf(ops) == {} && OverdueKeys(s) * KeysOf(ops) == {};
    } else {
      var s', rest := RecoverFirst(s, ops);
      RecoveryClearsPage(s', rest);
      SplitCount(OverdueKeys(s), ops[0].key, KeysOf(rest));
    }
  }

  lemma RecoverFirst(s: State, ops: seq<Op>) returns (s': State, rest: seq<Op>)
    requires ops != [] && ops[0].Recover?
    ensures rest == ops[1..] && Run(s, ops) == Run(s', rest) && KeysOf(ops) == {ops[0].key} + KeysOf(rest)
    ensures OverdueKeys(s') == OverdueKeys(s) - {ops[0].key}
    ensures s'.recoveries == s.recoveries + |OverdueKeys(s) * {ops[0].key}|
  {
    ListedIsRecovered(s, ops[0].key, ops[0].token);
    KeysOfRest(ops);
    s', rest := ApplyRecover(s, ops[0].key, ops[0].token).0, ops[1..];
  }

  lemma SplitCount(overdue: set<Key>, key: Key, rest: set<Key>)
    ensures |overdue * ({key} + rest)| == |overdue * {key}| + |(overdue - {key}) * rest|
    ensures overdue - {key} - rest == overdue - ({key} + rest)
  {
    assert overdue * ({key} + rest) == overdue * {key} + (overdue - {key}) * rest;
  }

  lemma KeysOfRest(ops: seq<Op>)
    requires ops != [] && ops[0].Recover?
    ensures KeysOf(ops) == {ops[0].key} + KeysOf(ops[1..])
  {
    forall k | k in KeysOf(ops[1..]) ensures k in KeysOf(ops) {
      var i :| 0 <= i < |ops[1..]| && ops[1..][i].Recover? && ops[1..][i].key == k;
      assert ops[i + 1].key == k;
    }
    forall k | k in KeysOf(ops) ensures k in {ops[0].key} + KeysOf(ops[1..]) {
      var i :| 0 <= i < |ops| && ops[i].Recover? && ops[i].key == k;
      if i > 0 { assert ops[1..][i - 1].key == k; }
    }
  }
}
