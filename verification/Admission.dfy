/** The in-memory provider-admission store of the capacity harness: one lease per
    admission identity, with rising fences, per-role and per-budget capacity tests,
    renewal, expiry, recovery, resolution and re-grant after a pre-start rejection.

    `State` is the value of all the store's fields; `Apply` is what one database
    transaction does to it. `Store` is the object that updates those fields in place,
    each method proved to do exactly what `Apply` says. */
module Admission {
  import opened Basics

  datatype Provider = Apify | Gemini

  /** A provider operation: its name and the generation suffix. */
  datatype Operation = Operation(name: string, generation: nat)

  /** The identity hashed into an admission id. Hashing is taken to be injective,
      so the identity itself is the key. */
  datatype Key = Key(role: Role, provider: Provider, slot: string, request: Uuid,
                     job: string, operation: Operation)

  datatype Input = Input(key: Key, budget: string, claim: Uuid, jobClaim: Uuid, seconds: nat)

  datatype Reason = Terminal | PrestartRejected
  datatype Status = Leased | Released(reason: Reason) | RecoveryRequired

  datatype Lease = Lease(input: Input, token: Uuid, fence: nat, expiresAt: int,
                         activeCount: nat, maxActive: nat, status: Status)

  datatype Pending = Pending(preflight: nat, paid: nat, gemini: nat)

  /** `regranted` and `regrants` only observe: no operation reads them. They record which
      identities took the re-grant branch, and how often that branch was taken. */
  datatype State = State(leases: map<Key, Lease>, peaks: map<string, nat>,
                         recoveries: nat, rotations: nat, renewals: nat,
                         pendingTotal: nat, pendingByRole: Pending, now: int,
                         regranted: set<Key>, regrants: nat)

  predicate Init(s: State) {
    s == State(map[], map[], 0, 0, 0, 0, Pending(0, 0, 0), s.now, {}, 0)
  }

  datatype Op =
    | Acquire(input: Input, token: Uuid)
    | Renew(key: Key, token: Uuid, fence: nat, seconds: nat)
    | Release(key: Key, token: Uuid, fence: nat, reason: Reason)
    | Recover(key: Key, token: Uuid)
    | Resolve(key: Key)
    | Expire(key: Key)
    | Tick(ms: nat)

  datatype Reply =
    | Granted(lease: Lease)
    | AlreadyAcquired(lease: Lease)
    | CapacityPending
    | IdentityConflict
    | Renewed(lease: Lease)
    | FenceMismatch
    | LeaseExpired
    | Answer(yes: bool)
    | Missing
    | Done

  // ---- Capacity limits and counts ----

  predicate IsRelationship(budget: string) {
    |budget| >= 13 && budget[|budget| - 13..] == ":relationship"
  }

  function GlobalLimit(role: Role, provider: Provider): nat {
    if provider.Gemini? then 8 else if role.Preflight? then 32 else 8
  }

  function BudgetLimit(input: Input): nat {
    if input.key.provider.Gemini? then 8
    else if IsRelationship(input.budget) then 4
    else GlobalLimit(input.key.role, Apify)
  }

  predicate Active(lease: Lease) { !lease.status.Released? }

  function ActiveGlobal(leases: map<Key, Lease>, role: Role, provider: Provider): set<Key> {
    set k | k in leases && Active(leases[k])
            && leases[k].input.key.role == role && leases[k].input.key.provider == provider
  }

  function ActiveBudget(leases: map<Key, Lease>, budget: string): set<Key> {
    set k | k in leases && Active(leases[k]) && leases[k].input.budget == budget
  }

  function MaxObserved(peaks: map<string, nat>, budget: string): nat {
    if budget in peaks then peaks[budget] else 0
  }

  function Max(a: nat, b: nat): nat { if a < b then b else a }

  function Recorded(peaks: map<string, nat>, leases: map<Key, Lease>, budget: string): map<string, nat> {
    peaks[budget := Max(MaxObserved(peaks, budget), |ActiveBudget(leases, budget)|)]
  }

  // ---- One transaction ----

  function Create(s: State, input: Input, token: Uuid): Lease {
    Lease(input, token, 1, s.now + input.seconds * 1000,
          |ActiveGlobal(s.leases, input.key.role, input.key.provider)| + 1, BudgetLimit(input), Leased)
  }

  function Regrant(s: State, prior: Lease, input: Input, token: Uuid): Lease {
    Lease(input, token, prior.fence + 1, s.now + input.seconds * 1000,
          |ActiveGlobal(s.leases, input.key.role, input.key.provider)| + 1, BudgetLimit(input), Leased)
  }

  predicate Full(s: State, input: Input) {
    || |ActiveGlobal(s.leases, input.key.role, input.key.provider)|
       >= GlobalLimit(input.key.role, input.key.provider)
    || |ActiveBudget(s.leases, input.budget)| >= BudgetLimit(input)
  }

  function Denied(p: Pending, key: Key): Pending {
    if key.provider.Gemini? then p.(gemini := p.gemini + 1)
    else if key.role.Preflight? then p.(preflight := p.preflight + 1)
    else p.(paid := p.paid + 1)
  }

  predicate Regrantable(s: State, key: Key) {
    key in s.leases && s.leases[key].status == Released(PrestartRejected)
  }

  function ApplyAcquire(s: State, input: Input, token: Uuid): (State, Reply) {
    if input.key in s.leases then
      var existing := s.leases[input.key];
      match existing.status
      case Leased =>
        if existing.input.claim != input.claim || existing.input.jobClaim != input.jobClaim
        then (s, IdentityConflict)
        else (s, AlreadyAcquired(existing))
      case RecoveryRequired => (s, CapacityPending)
      case Released(Terminal) => (s, IdentityConflict)
      case Released(PrestartRejected) =>
        var lease := Regrant(s, existing, input, token);
        var leases := s.leases[input.key := lease];
        (s.(leases := leases, peaks := Recorded(s.peaks, leases, input.budget),
            rotations := s.rotations + 1,
            regranted := s.regranted + {input.key}, regrants := s.regrants + 1),
         Granted(lease))
    else if Full(s, input) then
      (s.(pendingTotal := s.pendingTotal + 1, pendingByRole := Denied(s.pendingByRole, input.key)),
       CapacityPending)
    else
      var lease := Create(s, input, token);
      var leases := s.leases[input.key := lease];
      (s.(leases := leases, peaks := Recorded(s.peaks, leases, input.budget)), Granted(lease))
  }

  /** The lease is held under exactly this token and fence. */
  predicate Holds(s: State, key: Key, token: Uuid, fence: nat) {
    key in s.leases && s.leases[key].status.Leased?
    && s.leases[key].token == token && s.leases[key].fence == fence
  }

  function ApplyRenew(s: State, key: Key, token: Uuid, fence: nat, seconds: nat): (State, Reply) {
    if !Holds(s, key, token, fence) then (s, FenceMismatch)
    else
      var lease := s.leases[key].(expiresAt := s.now + seconds * 1000);
      (s.(leases := s.leases[key := lease], renewals := s.renewals + 1), Renewed(lease))
  }

  function ApplyRelease(s: State, key: Key, token: Uuid, fence: nat, reason: Reason): (State, Reply) {
    if key !in s.leases then (s, FenceMismatch)
    else
      var current := s.leases[key];
      if current.status.Released? && current.token == token && current.fence == fence then (s, Done)
      else if !Holds(s, key, token, fence) then (s, FenceMismatch)
      else if current.expiresAt <= s.now then (s, LeaseExpired)
      else (s.(leases := s.leases[key := current.(status := Released(reason))]), Done)
  }

  function ApplyRecover(s: State, key: Key, token: Uuid): (State, Reply) {
    if key !in s.leases || s.leases[key].status.Released? then (s, Answer(false))
    else
      var current := s.leases[key];
      if current.status.RecoveryRequired? then (s, Answer(true))
      else if current.expiresAt > s.now then (s, Answer(false))
      else
        var lease := current.(status := RecoveryRequired, token := token, fence := current.fence + 1);
        (s.(leases := s.leases[key := lease],
            recoveries := s.recoveries + 1, rotations := s.rotations + 1),
         Answer(true))
  }

  function ApplyResolve(s: State, key: Key): (State, Reply) {
    if key !in s.leases || !s.leases[key].status.RecoveryRequired? then (s, Answer(false))
    else
      (s.(leases := s.leases[key := s.leases[key].(status := Released(PrestartRejected))]), Answer(true))
  }

  function ApplyExpire(s: State, key: Key): (State, Reply) {
    if key !in s.leases then (s, Missing)
    else (s.(leases := s.leases[key := s.leases[key].(expiresAt := s.now - 1000)]), Done)
  }

  function Apply(s: State, op: Op): (State, Reply) {
    match op
    case Acquire(input, token) => ApplyAcquire(s, input, token)
    case Renew(key, token, fence, seconds) => ApplyRenew(s, key, token, fence, seconds)
    case Release(key, token, fence, reason) => ApplyRelease(s, key, token, fence, reason)
    case Recover(key, token) => ApplyRecover(s, key, token)
    case Resolve(key) => ApplyResolve(s, key)
    case Expire(key) => ApplyExpire(s, key)
    case Tick(ms) => (s.(now := s.now + ms), Done)
  }

  /** The state after a whole sequence of operations. */
  function Run(s: State, ops: seq<Op>): State
    decreases ops
  {
    if ops == [] then s else Run(Apply(s, ops[0]).0, ops[1..])
  }

  lemma {:induction false} RunSnoc(s: State, ops: seq<Op>, op: Op)
    ensures Run(s, ops + [op]) == Apply(Run(s, ops), op).0
    decreases ops
  {
    if ops == [] {
      assert ([op])[1..] == [];
    } else {
      assert (ops + [op])[1..] == ops[1..] + [op];
      RunSnoc(Apply(s, ops[0]).0, ops[1..], op);
    }
  }

  // ---- The recovery page ----

  /** One line of the recovery page. */
  datatype Candidate = Candidate(key: Key, fence: nat, expiresAt: int)

  function Listed(key: Key, lease: Lease): Candidate { Candidate(key, lease.fence, lease.expiresAt) }

  /** A held lease whose time has passed. */
  predicate Overdue(leases: map<Key, Lease>, now: int, key: Key) {
    key in leases && leases[key].status.Leased? && leases[key].expiresAt <= now
  }

  // ---- The store object ----

  class Store {
    var leases: map<Key, Lease>
    var maxActiveByBudget: map<string, nat>
    var recoveryCount: nat
    var fenceRotations: nat
    var renewedLeases: nat
    var capacityPending: nat
    var capacityPendingByRole: Pending
    var now: int
    ghost var regranted: set<Key>
    ghost var regrants: nat

    ghost function View(): State
      reads this
    {
      State(leases, maxActiveByBudget, recoveryCount, fenceRotations, renewedLeases,
            capacityPending, capacityPendingByRole, now, regranted, regrants)
    }

    constructor (clock: int)
      ensures Init(View()) && now == clock
    {
      leases, maxActiveByBudget := map[], map[];
      recoveryCount, fenceRotations, renewedLeases, capacityPending := 0, 0, 0, 0;
      capacityPendingByRole := Pending(0, 0, 0);
      now := clock;
      regranted, regrants := {}, 0;
    }

    method RecordBudgetActive(budget: string)
      modifies this`maxActiveByBudget
      ensures maxActiveByBudget == Recorded(old(maxActiveByBudget), leases, budget)
    {
      var active := |ActiveBudget(leases, budget)|;
      var observed := MaxObserved(maxActiveByBudget, budget);
      maxActiveByBudget := maxActiveByBudget[budget := if observed < active then active else observed];
    }

    method Acquire(input: Input, token: Uuid) returns (reply: Reply)
      modifies this
      ensures (View(), reply) == Apply(old(View()), Op.Acquire(input, token))
    {
      var activeCount := |ActiveGlobal(leases, input.key.role, input.key.provider)|;
      if input.key in leases {
        var existing := leases[input.key];
        if existing.status.Leased? {
          if existing.input.claim != input.claim || existing.input.jobClaim != input.jobClaim {
            return IdentityConflict;
          }
          return AlreadyAcquired(existing);
        }
        if existing.status.RecoveryRequired? {
          return CapacityPending;
        }
        if existing.status.reason != PrestartRejected {
          return IdentityConflict;
        }
        var reacquired := Lease(input, token, existing.fence + 1, now + input.seconds * 1000,
                                activeCount + 1, BudgetLimit(input), Leased);
        leases := leases[input.key := reacquired];
        RecordBudgetActive(input.budget);
        fenceRotations := fenceRotations + 1;
        regranted, regrants := regranted + {input.key}, regrants + 1;
        return Granted(reacquired);
      }
      if activeCount >= GlobalLimit(input.key.role, input.key.provider)
         || |ActiveBudget(leases, input.budget)| >= BudgetLimit(input) {
        capacityPending := capacityPending + 1;
        capacityPendingByRole := Denied(capacityPendingByRole, input.key);
        return CapacityPending;
      }
      var created := Lease(input, token, 1, now + input.seconds * 1000,
                           activeCount + 1, BudgetLimit(input), Leased);
      leases := leases[input.key := created];
      RecordBudgetActive(input.budget);
      return Granted(created);
    }

    method Renew(key: Key, token: Uuid, fence: nat, seconds: nat) returns (reply: Reply)
      modifies this
      ensures (View(), reply) == Apply(old(View()), Op.Renew(key, token, fence, seconds))
    {
      if key !in leases || !leases[key].status.Leased?
         || leases[key].token != token || leases[key].fence != fence {
        return FenceMismatch;
      }
      var renewed := leases[key].(expiresAt := now + seconds * 1000);
      leases := leases[key := renewed];
      renewedLeases := renewedLeases + 1;
      return Renewed(renewed);
    }

    method Release(key: Key, token: Uuid, fence: nat, reason: Reason) returns (reply: Reply)
      modifies this
      ensures (View(), reply) == Apply(old(View()), Op.Release(key, token, fence, reason))
    {
      if key !in leases {
        return FenceMismatch;
      }
      var current := leases[key];
      if current.status.Released? && current.token == token && current.fence == fence {
        return Done;
      }
      if !current.status.Leased? || current.token != token || current.fence != fence {
        return FenceMismatch;
      }
      if current.expiresAt <= now {
        return LeaseExpired;
      }
      leases := leases[key := current.(status := Released(reason))];
      return Done;
    }

    method RecoverExpired(key: Key, token: Uuid) returns (reply: Reply)
      modifies this
      ensures (View(), reply) == Apply(old(View()), Recover(key, token))
    {
      if key !in leases || leases[key].status.Released? {
        return Answer(false);
      }
      var current := leases[key];
      if current.status.RecoveryRequired? {
        return Answer(true);
      }
      if current.expiresAt > now {
        return Answer(false);
      }
      leases := leases[key := current.(status := RecoveryRequired, token := token,
                                       fence := current.fence + 1)];
      recoveryCount := recoveryCount + 1;
      fenceRotations := fenceRotations + 1;
      return Answer(true);
    }

    method Resolve(key: Key) returns (reply: Reply)
      modifies this
      ensures (View(), reply) == Apply(old(View()), Op.Resolve(key))
    {
      if key !in leases || !leases[key].status.RecoveryRequired? {
        return Answer(false);
      }
      leases := leases[key := leases[key].(status := Released(PrestartRejected))];
      return Answer(true);
    }

    method Expire(key: Key) returns (reply: Reply)
      modifies this
      ensures (View(), reply) == Apply(old(View()), Op.Expire(key))
    {
      if key !in leases {
        return Missing;
      }
      leases := leases[key := leases[key].(expiresAt := now - 1000)];
      return Done;
    }

    /** The recovery page: a scan over the leases that keeps key, fence and expiry of the overdue ones. */
    method ListExpired() returns (candidates: set<Candidate>)
      ensures forall c :: c in candidates <==> Overdue(leases, now, c.key) && c == Listed(c.key, leases[c.key])
    {
      candidates := {};
      var rest := leases.Keys;
      while rest != {}
        invariant rest <= leases.Keys
        invariant forall c :: c in candidates <==>
          Overdue(leases, now, c.key) && c.key !in rest && c == Listed(c.key, leases[c.key])
        decreases rest
      {
        var key :| key in rest;
        if leases[key].status.Leased? && leases[key].expiresAt <= now {
          candidates := candidates + {Listed(key, leases[key])};
        }
        rest := rest - {key};
      }
    }
  }
}
