/** The durable journal of the paid profile-provider canary: one experiment and at most two
    repetitions. Each function is one database transaction, so a value in, a value out. */
module CanaryJournal {
  import opened Basics

  datatype Rep = First | Second

  datatype Storage = Kvs | Dataset | Queue

  const STORAGES: seq<Storage> := [Kvs, Dataset, Queue]

  const ALL: set<Storage> := {Kvs, Dataset, Queue}

  /** The aggregate the provider run is judged by; money is in micro-dollars. */
  datatype Evidence = Evidence(success: nat, unavailable: nat, incomplete: nat, other: nat,
                               critical: nat, latencyMs: nat, build: bool, restricted: bool)

  const MAX_RUN_CHARGE: nat := 50_000
  const MAX_OBSERVED_USAGE: nat := 1_000_000
  const MAX_LATENCY_MS: nat := 60_000

  predicate ValidEvidence(v: Evidence) {
    v.success + v.unavailable + v.incomplete + v.other == 15 && v.critical <= 3 && v.latencyMs <= 300_000
  }

  datatype RunState = Starting | Ambiguous | Running | Succeeded | Failed | NoRun

  /** `cost` is the reconciled usage; `gate` is set when the last of the three storages is marked. */
  datatype Run = Run(state: RunState, reservedAt: nat, id: Option<nat>, evidence: Option<Evidence>, cost: Option<nat>,
                     cleaned: set<Storage>, gate: Option<bool>, terminalizedAt: nat)

  datatype Reason = StrictFailure | VerifiedNoRun | Completed | Aborted | Expired

  datatype Phase =
    | Active
    | Awaiting(deadline: nat)
    | Terminalizing(reason: Reason, claim: nat, leaseUntil: nat)
    | Finished(reason: Reason, claim: nat)

  datatype Journal = NoJournal(now: nat)
                   | Journal(now: nat, phase: Phase, sourceCleaned: set<Storage>, runs: map<Rep, Run>)

  const HOUR: nat := 3_600_000
  const CLEANUP_LEASE: nat := 600_000

  // ---- The gates ----

  /** The gate of the script, on the evidence alone. */
  predicate GatePassed(v: Evidence) {
    v.success == 15 && v.unavailable == 0 && v.incomplete == 0 && v.other == 0
    && v.critical == 3 && v.latencyMs <= MAX_LATENCY_MS && v.build && v.restricted
  }

  /** What a terminal repetition is recorded as. Restricted access is not part of it. */
  function Verdict(v: Evidence): RunState {
    if v.success == 15 && v.unavailable == 0 && v.incomplete == 0 && v.other == 0
       && v.critical == 3 && v.latencyMs <= MAX_LATENCY_MS && v.build
    then Succeeded else Failed
  }

  /** The gate of the journal, computed when a repetition's storages are all marked. */
  predicate DurableGate(r: Run) {
    r.state.Succeeded? && r.evidence.Some? && r.cost.Some?
    && r.evidence.value.success == 15 && r.evidence.value.unavailable == 0
    && r.evidence.value.incomplete == 0 && r.evidence.value.other == 0
    && r.evidence.value.critical == 3 && r.evidence.value.latencyMs <= MAX_LATENCY_MS
    && r.evidence.value.build && r.evidence.value.restricted && r.cost.value <= MAX_RUN_CHARGE
  }

  // ---- Transactions ----

  predicate Ended(r: Run) { r.state.Succeeded? || r.state.Failed? }

  predicate Open(r: Run) { r.state.Starting? || r.state.Ambiguous? || r.state.Running? }

  /** A repetition that may stand in the way of terminalizing neither by its state nor by its cost. */
  predicate Ready(r: Run) { r.state.NoRun? || (Ended(r) && r.cost.Some? && r.gate.Some?) }

  predicate Passed(j: Journal) {
    j.Journal? && First in j.runs && j.runs[First].state.Succeeded? && j.runs[First].gate == Some(true)
    && j.runs[First].cost.Some?
  }

  predicate Has(j: Journal, rep: Rep) { j.Journal? && rep in j.runs }

  datatype Reservation = Created | Existing | Refused

  function Reserved(now: nat): Run { Run(Starting, now, None, None, None, {}, None, 0) }

  function Reserve(j: Journal, rep: Rep): (Journal, Reservation) {
    if j.NoJournal? then
      if rep.Second? then (j, Refused)
      else (Journal(j.now, Active, {}, map[First := Reserved(j.now)]), Created)
    else if j.phase.Finished? then (j, Refused)
    else if rep in j.runs then (j, Existing)
    else if rep.Second? then
      if j.phase.Awaiting? && j.now < j.phase.deadline && Passed(j)
      then (j.(phase := Active, runs := j.runs[Second := Reserved(j.now)]), Created)
      else (j, Refused)
    else if j.phase.Active? then (j.(runs := j.runs[First := Reserved(j.now)]), Created)
    else (j, Refused)
  }

  predicate IdTaken(j: Journal, rep: Rep, id: nat) {
    j.Journal? && exists r :: r in j.runs && r != rep && j.runs[r].id == Some(id)
  }

  function Checkpoint(j: Journal, rep: Rep, id: nat): (Journal, bool) {
    if !Has(j, rep) then (j, false)
    else
      var r := j.runs[rep];
      if r.state.Starting? then
        if IdTaken(j, rep, id) then (j, false)
        else (j.(runs := j.runs[rep := r.(state := Running, id := Some(id))]), true)
      else (j, !r.state.Ambiguous? && r.id == Some(id))
  }

  function MarkAmbiguous(j: Journal, rep: Rep): (Journal, bool) {
    if !Has(j, rep) then (j, false)
    else
      var r := j.runs[rep];
      if r.state.Starting? then (j.(runs := j.runs[rep := r.(state := Ambiguous)]), true)
      else (j, r.state.Ambiguous?)
  }

  function Terminalize(j: Journal, rep: Rep, id: nat, v: Evidence): (Journal, bool) {
    if !ValidEvidence(v) || !Has(j, rep) || j.runs[rep].id != Some(id) then (j, false)
    else
      var r := j.runs[rep];
      if Ended(r) then (j, r.evidence == Some(v))
      else if !r.state.Running? then (j, false)
      else (j.(runs := j.runs[rep := r.(state := Verdict(v), evidence := Some(v), terminalizedAt := j.now)]), true)
  }

  function Reconcile(j: Journal, rep: Rep, id: nat, cost: nat): (Journal, bool) {
    if cost > MAX_OBSERVED_USAGE || !Has(j, rep) || j.runs[rep].id != Some(id) || !Ended(j.runs[rep])
    then (j, false)
    else
      var r := j.runs[rep];
      if r.cost.Some? then (j, r.cost == Some(cost))
      else (j.(runs := j.runs[rep := r.(cost := Some(cost))]), true)
  }

  function Marked(r: Run, storage: Storage): Run {
    var r' := r.(cleaned := r.cleaned + {storage});
    if r'.cleaned == ALL then r'.(gate := Some(DurableGate(r'))) else r'
  }

  function MarkRunStorage(j: Journal, rep: Rep, id: nat, storage: Storage): (Journal, bool) {
    if !Has(j, rep) || j.runs[rep].id != Some(id) || !Ended(j.runs[rep]) || j.runs[rep].cost.None?
    then (j, false)
    else
      var r := Marked(j.runs[rep], storage);
      var awaits := r.cleaned == ALL && rep.First? && r.gate == Some(true) && j.phase.Active?;
      (j.(runs := j.runs[rep := r], phase := if awaits then Awaiting(r.terminalizedAt + HOUR) else j.phase), true)
  }

  /** An operator attaches an existing provider run to an ambiguous repetition. */
  function AdoptRun(j: Journal, rep: Rep, id: nat): (Journal, bool) {
    if !Has(j, rep) then (j, false)
    else
      var r := j.runs[rep];
      if r.state.Running? then (j, r.id == Some(id))
      else if !r.state.Ambiguous? || IdTaken(j, rep, id) then (j, false)
      else (j.(runs := j.runs[rep := r.(state := Running, id := Some(id))]), true)
  }

  /** An operator states that an ambiguous repetition never started; cleanup is then due. */
  function ResolveNoRun(j: Journal, rep: Rep, token: nat): (Journal, bool) {
    if !Has(j, rep) then (j, false)
    else
      var r := j.runs[rep];
      if r.state.NoRun? then
        (j, (j.phase.Terminalizing? || j.phase.Finished?) && j.phase.reason.VerifiedNoRun?)
      else if !r.state.Ambiguous? || !j.phase.Active?
              || (rep.First? && Second in j.runs) || (rep.Second? && !Passed(j)) then (j, false)
      else
        (j.(runs := j.runs[rep := r.(state := NoRun, cost := Some(0), gate := Some(false), terminalizedAt := j.now)],
            phase := Terminalizing(VerifiedNoRun, token, j.now)), true)
  }

  predicate Entitled(j: Journal, reason: Reason)
    requires j.Journal?
  {
    match reason
    case Aborted => j.phase.Awaiting? && Second !in j.runs
    case VerifiedNoRun => exists rep :: rep in j.runs && j.runs[rep].state.NoRun?
    case Completed => Second in j.runs && j.runs[Second].gate == Some(true)
    case StrictFailure => exists rep :: rep in j.runs && j.runs[rep].gate == Some(false)
    case Expired => false
  }

  /** Answers the claim token under which cleanup proceeds. */
  function Begin(j: Journal, reason: Reason, token: nat): (Journal, Option<nat>) {
    if j.NoJournal? then (j, None)
    else if j.phase.Finished? then (j, if j.phase.reason == reason then Some(j.phase.claim) else None)
    else if j.phase.Terminalizing? && j.phase.claim == token && j.phase.reason == reason then (j, Some(token))
    else if j.phase.Terminalizing? && (j.phase.reason != reason || j.now < j.phase.leaseUntil) then (j, None)
    else if j.runs == map[] || (exists rep :: rep in j.runs && !Ready(j.runs[rep])) || !Entitled(j, reason)
    then (j, None)
    else (j.(phase := Terminalizing(reason, token, j.now + CLEANUP_LEASE)), Some(token))
  }

  function ClaimExpired(j: Journal, token: nat): (Journal, bool) {
    if j.Journal? && j.phase.Awaiting? && j.phase.deadline <= j.now && Second !in j.runs then
      (j.(phase := Terminalizing(Expired, token, j.now + CLEANUP_LEASE)), true)
    else if j.Journal? && j.phase.Terminalizing? && j.phase.leaseUntil <= j.now then
      (j.(phase := Terminalizing(j.phase.reason, token, j.now + CLEANUP_LEASE)), true)
    else (j, false)
  }

  predicate Holds(j: Journal, claim: nat) {
    j.Journal? && j.phase.Terminalizing? && j.phase.claim == claim
  }

  function MarkSourceStorage(j: Journal, claim: nat, storage: Storage): (Journal, bool) {
    if !Holds(j, claim) then (j, false)
    else (j.(sourceCleaned := j.sourceCleaned + {storage}), true)
  }

  predicate Clean(r: Run) { r.cost.Some? && r.gate.Some? && r.cleaned == ALL }

  function Complete(j: Journal, claim: nat): (Journal, bool) {
    if j.Journal? && j.phase.Finished? && j.phase.claim == claim then (j, true)
    else if !Holds(j, claim) || j.sourceCleaned != ALL
            || (exists rep :: rep in j.runs && (Open(j.runs[rep]) || (j.runs[rep].id.Some? && !Clean(j.runs[rep]))))
    then (j, false)
    else (j.(phase := Finished(j.phase.reason, claim)), true)
  }

  function Tick(j: Journal, ms: nat): Journal { j.(now := j.now + ms) }

  // ---- What every transaction keeps ----

  predicate RunOk(r: Run) {
    match r.state
    case Starting => r == Reserved(r.reservedAt)
    case Ambiguous => r == Reserved(r.reservedAt).(state := Ambiguous)
    case Running => r.id.Some? && r == Reserved(r.reservedAt).(state := Running, id := r.id)
    case NoRun => r.id.None? && r.cost == Some(0) && r.gate == Some(false) && r.cleaned == {}
    case _ =>
      && r.id.Some? && r.evidence.Some? && r.state == Verdict(r.evidence.value)
      && (r.cost.None? ==> r.cleaned == {})
      && (r.cost.Some? ==> r.cost.value <= MAX_OBSERVED_USAGE)
      && (r.gate.Some? <==> r.cleaned == ALL)
      && (r.gate.Some? ==> r.gate.value == DurableGate(r))
  }

  /** Why cleanup was begun. */
  ghost predicate Warranted(j: Journal, reason: Reason)
    requires j.Journal?
  {
    match reason
    case Completed => Second in j.runs && j.runs[Second].gate == Some(true)
    case StrictFailure => exists rep :: rep in j.runs && j.runs[rep].gate == Some(false)
    case VerifiedNoRun => exists rep :: rep in j.runs && j.runs[rep].state.NoRun?
    case Aborted => Second !in j.runs && Passed(j)
    case Expired => Second !in j.runs && Passed(j) && j.runs[First].terminalizedAt + HOUR <= j.now
  }

  ghost predicate JournalOk(j: Journal) {
    j.Journal? ==>
      && First in j.runs
      && (forall rep :: rep in j.runs ==> RunOk(j.runs[rep]))
      && (forall a, b :: a in j.runs && b in j.runs && j.runs[a].id.Some? && j.runs[a].id == j.runs[b].id ==> a == b)
      && (Second in j.runs || j.phase.Awaiting? ==> Passed(j))
      && (j.phase.Terminalizing? || j.phase.Finished? ==> forall rep :: rep in j.runs ==> Ready(j.runs[rep]))
      && (j.phase.Finished? ==> j.sourceCleaned == ALL)
      && (j.phase.Awaiting? ==> j.phase.deadline == j.runs[First].terminalizedAt + HOUR)
      && (Second in j.runs ==> j.runs[Second].reservedAt < j.runs[First].terminalizedAt + HOUR)
      && (j.phase.Terminalizing? || j.phase.Finished? ==> Warranted(j, j.phase.reason))
  }

  predicate Cleaning(j: Journal) { j.Journal? && (j.phase.Terminalizing? || j.phase.Finished?) }

  predicate RunGrew(r: Run, r': Run) {
    && (r.id.Some? ==> r'.id == r.id) && (r.cost.Some? ==> r'.cost == r.cost)
    && (r.evidence.Some? ==> r'.evidence == r.evidence)
    && (Ended(r) || r.state.NoRun? ==> r'.state == r.state && r'.terminalizedAt == r.terminalizedAt)
    && r'.reservedAt == r.reservedAt
    && r.cleaned <= r'.cleaned && (r.gate.Some? ==> r'.gate == r.gate)
  }

  /** Records only gain facts; cleanup once begun is never left nor given another reason, and while its
      lease runs nobody else takes it over. */
  ghost predicate Grew(j: Journal, j': Journal) {
    && j.now <= j'.now
    && (j.Journal? ==>
          && j'.Journal?
          && (forall rep :: rep in j.runs ==> rep in j'.runs && RunGrew(j.runs[rep], j'.runs[rep]))
          && j.sourceCleaned <= j'.sourceCleaned
          && (Cleaning(j) ==> Cleaning(j') && j'.phase.reason == j.phase.reason)
          && (j.phase.Terminalizing? && j'.now < j.phase.leaseUntil ==>
                j'.phase == j.phase || j'.phase == Finished(j.phase.reason, j.phase.claim))
          && (j.phase.Finished? ==> j'.phase == j.phase))
  }

  /** One transaction, whichever it is. */
  datatype Txn =
    | TReserve(rep: Rep) | TCheckpoint(rep: Rep, id: nat) | TAmbiguous(rep: Rep)
    | TTerminalize(rep: Rep, id: nat, evidence: Evidence) | TReconcile(rep: Rep, id: nat, cost: nat)
    | TMarkRun(rep: Rep, id: nat, storage: Storage) | TAdopt(rep: Rep, id: nat) | TNoRun(rep: Rep, token: nat)
    | TBegin(reason: Reason, token: nat) | TClaimExpired(token: nat)
    | TMarkSource(claim: nat, storage: Storage) | TComplete(claim: nat) | TTick(ms: nat)

  function Commit(j: Journal, t: Txn): Journal {
    match t
    case TReserve(rep) => Reserve(j, rep).0
    case TCheckpoint(rep, id) => Checkpoint(j, rep, id).0
    case TAmbiguous(rep) => MarkAmbiguous(j, rep).0
    case TTerminalize(rep, id, v) => Terminalize(j, rep, id, v).0
    case TReconcile(rep, id, cost) => Reconcile(j, rep, id, cost).0
    case TMarkRun(rep, id, storage) => MarkRunStorage(j, rep, id, storage).0
    case TAdopt(rep, id) => AdoptRun(j, rep, id).0
    case TNoRun(rep, token) => ResolveNoRun(j, rep, token).0
    case TBegin(reason, token) => Begin(j, reason, token).0
    case TClaimExpired(token) => ClaimExpired(j, token).0
    case TMarkSource(claim, storage) => MarkSourceStorage(j, claim, storage).0
    case TComplete(claim) => Complete(j, claim).0
    case TTick(ms) => Tick(j, ms)
  }

  lemma WarrantStays(j: Journal, rep: Rep, r: Run, reason: Reason)
    requires Has(j, rep) && RunGrew(j.runs[rep], r) && Warranted(j, reason)
    ensures Warranted(j.(runs := j.runs[rep := r]), reason)
  {
    var j' := j.(runs := j.runs[rep := r]);
    if reason.StrictFailure? {
      var k :| k in j.runs && j.runs[k].gate == Some(false);
      assert k in j'.runs && j'.runs[k].gate == Some(false);
    }
    if reason.VerifiedNoRun? {
      var k :| k in j.runs && j.runs[k].state.NoRun?;
      assert k in j'.runs && j'.runs[k].state.NoRun?;
    }
  }

  lemma IdsStayUnique(j: Journal, rep: Rep, r: Run)
    requires JournalOk(j) && Has(j, rep)
    requires r.id.Some? ==> r.id == j.runs[rep].id || !IdTaken(j, rep, r.id.value)
    ensures var runs := j.runs[rep := r];
      forall a, b :: a in runs && b in runs && runs[a].id.Some? && runs[a].id == runs[b].id ==> a == b
  {}

  /** Replacing one record by a grown one. */
  lemma UpdateOk(j: Journal, rep: Rep, r: Run)
    requires JournalOk(j) && Has(j, rep)
    requires RunOk(r) && RunGrew(j.runs[rep], r) && (Ready(j.runs[rep]) ==> Ready(r))
    requires r.id.Some? ==> r.id == j.runs[rep].id || !IdTaken(j, rep, r.id.value)
    ensures var j' := j.(runs := j.runs[rep := r]); JournalOk(j') && Grew(j, j')
  {
    IdsStayUnique(j, rep, r);
    if Cleaning(j) { WarrantStays(j, rep, r, j.phase.reason); }
  }

  lemma RunTxnOk(j: Journal, t: Txn)
    requires JournalOk(j) && (t.TCheckpoint? || t.TAmbiguous? || t.TTerminalize? || t.TReconcile? || t.TAdopt?)
    ensures JournalOk(Commit(j, t)) && Grew(j, Commit(j, t))
  {
    var j' := Commit(j, t);
    if j' != j {
      assert RunOk(j.runs[t.rep]);
      UpdateOk(j, t.rep, j'.runs[t.rep]);
    }
  }

  lemma MarkedOk(r: Run, storage: Storage)
    requires RunOk(r) && Ended(r) && r.cost.Some?
    ensures RunOk(Marked(r, storage)) && RunGrew(r, Marked(r, storage)) && (Ready(r) ==> Ready(Marked(r, storage)))
  {
    assert ALL + {storage} == ALL;
  }

  lemma MarkTxnOk(j: Journal, t: Txn)
    requires JournalOk(j) && t.TMarkRun?
    ensures JournalOk(Commit(j, t)) && Grew(j, Commit(j, t))
  {
    if MarkRunStorage(j, t.rep, t.id, t.storage).1 {
      assert RunOk(j.runs[t.rep]);
      MarkedOk(j.runs[t.rep], t.storage);
      UpdateOk(j, t.rep, Marked(j.runs[t.rep], t.storage));
    }
  }

  lemma ReserveOk(j: Journal, rep: Rep)
    requires JournalOk(j)
    ensures var j' := Reserve(j, rep).0; JournalOk(j') && Grew(j, j')
  {
    if j.Journal? && Reserve(j, rep).1.Created? {
      forall r | r in j.runs ensures RunOk(j.runs[r]) {}
    }
  }

  lemma NoRunOk(j: Journal, rep: Rep, token: nat)
    requires JournalOk(j)
    ensures var j' := ResolveNoRun(j, rep, token).0; JournalOk(j') && Grew(j, j')
  {
    var j' := ResolveNoRun(j, rep, token).0;
    if j' != j {
      assert RunOk(j.runs[rep]) && RunOk(j.runs[First]);
      UpdateOk(j, rep, j'.runs[rep]);
      forall r | r in j'.runs ensures Ready(j'.runs[r]) {
        if r != rep { assert r == First && rep == Second; }
      }
      assert j'.runs[rep].state.NoRun?;
    }
  }

  /** Changing the phase, to or within cleanup. */
  lemma PhaseOk(j: Journal, phase: Phase, source: set<Storage>)
    requires JournalOk(j) && j.Journal? && !j.phase.Finished? && j.sourceCleaned <= source
    requires phase == j.phase ||
      ((phase.Terminalizing? || phase.Finished?) && Warranted(j, phase.reason)
       && forall r :: r in j.runs ==> Ready(j.runs[r]))
    requires Cleaning(j) ==> phase.reason == j.phase.reason
    requires j.phase.Terminalizing? && j.now < j.phase.leaseUntil ==>
      phase == j.phase || phase == Finished(j.phase.reason, j.phase.claim)
    requires phase.Finished? ==> source == ALL
    ensures var j' := j.(phase := phase, sourceCleaned := source); JournalOk(j') && Grew(j, j')
  {
    var j' := j.(phase := phase, sourceCleaned := source);
    if Cleaning(j') {
      assert j'.runs == j.runs && Warranted(j, phase.reason) == Warranted(j', phase.reason);
    }
  }

  lemma PhaseTxnOk(j: Journal, t: Txn)
    requires JournalOk(j)
    requires t.TBegin? || t.TClaimExpired? || t.TMarkSource? || t.TComplete?
    ensures JournalOk(Commit(j, t)) && Grew(j, Commit(j, t))
  {
    var j' := Commit(j, t);
    if j' != j {
      forall r | r in j.runs && j'.phase != j.phase ensures Ready(j.runs[r]) {
        if t.TClaimExpired? { assert r == First || r == Second; assert RunOk(j.runs[First]); }
      }
      if t.TBegin? { assert Warranted(j, t.reason); }
      PhaseOk(j, j'.phase, j'.sourceCleaned);
    }
  }

  /** Every transaction keeps the journal consistent and only adds facts to it. */
  lemma CommitOk(j: Journal, t: Txn)
    requires JournalOk(j)
    ensures JournalOk(Commit(j, t)) && Grew(j, Commit(j, t))
  {
    if t.TMarkRun? { MarkTxnOk(j, t); }
    else if t.TCheckpoint? || t.TAmbiguous? || t.TTerminalize? || t.TReconcile? || t.TAdopt? { RunTxnOk(j, t); }
    else if t.TReserve? { ReserveOk(j, t.rep); }
    else if t.TNoRun? { NoRunOk(j, t.rep, t.token); }
    else if !t.TTick? { PhaseTxnOk(j, t); }
  }

  /** The durable gate of a fully cleaned repetition agrees with the script's gate on its evidence,
      further requiring the reconciled usage to stay within the charge ceiling of one run. */
  lemma GatesAgree(j: Journal, rep: Rep)
    requires JournalOk(j) && Has(j, rep) && Ended(j.runs[rep]) && j.runs[rep].gate.Some?
    ensures var r := j.runs[rep];
      && r.evidence.Some? && r.cost.Some?
      && (r.gate.value <==> GatePassed(r.evidence.value) && r.cost.value <= MAX_RUN_CHARGE)
  {
    assert RunOk(j.runs[rep]);
  }

  /** The script's gate is the recorded verdict together with restricted access; so the two disagree
      exactly on evidence that lacks nothing but restricted access. */
  lemma VerdictAndGate(v: Evidence)
    ensures GatePassed(v) <==> Verdict(v).Succeeded? && v.restricted
    ensures Verdict(v).Succeeded? && !GatePassed(v) <==>
      v == Evidence(15, 0, 0, 0, 3, v.latencyMs, true, false) && v.latencyMs <= MAX_LATENCY_MS
    ensures Verdict(v).Succeeded? && !GatePassed(v) ==> ValidEvidence(v)
  {}

  /** An experiment that waits for its second repetition can be closed as expired exactly once an hour has
      passed since the first one ended. */
  lemma WaitingLasts(j: Journal, token: nat)
    requires JournalOk(j) && j.Journal? && j.phase.Awaiting? && Second !in j.runs
    ensures ClaimExpired(j, token).1 <==> j.now >= j.runs[First].terminalizedAt + 3_600_000
  {}

  /** A cleanup just begun or taken over can be taken over by somebody else exactly once ten minutes have
      passed. */
  lemma CleanupLeaseLasts(j: Journal, t: Txn, ms: nat, token: nat)
    requires (t.TBegin? || t.TClaimExpired?) && Commit(j, t) != j
    ensures ClaimExpired(Tick(Commit(j, t), ms), token).1 <==> ms >= 600_000
  {}

  lemma GrewTransitive(a: Journal, b: Journal, c: Journal)
    requires Grew(a, b) && Grew(b, c)
    ensures Grew(a, c)
  {
    if a.Journal? {
      forall rep | rep in a.runs ensures rep in c.runs && RunGrew(a.runs[rep], c.runs[rep]) {
        assert RunGrew(a.runs[rep], b.runs[rep]) && RunGrew(b.runs[rep], c.runs[rep]);
      }
    }
  }
}
