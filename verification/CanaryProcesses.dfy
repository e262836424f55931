/** Invocations of the canary script, of its finaliser and of the recovery sweep, all working on one
    journal and one provider, each liable to stop between any two of its durable writes and external
    effects. A stopped invocation is never resumed: a retry is a new one. */
module CanaryProcesses {
  import opened Basics
  import opened CanaryJournal

  /** Provider run ids below this one are the eight source runs; the canary's own are above. */
  const SOURCES: nat := 8

  // ---- Cleanup programs ----

  /** `Delete` only attempts; `Verify` is the read that must find nothing. */
  datatype Instr =
    | Delete(id: nat, storage: Storage)
    | Verify(id: nat, storage: Storage)
    | MarkRun(rep: Rep, id: nat, storage: Storage)
    | MarkSource(claim: nat, storage: Storage)
    | Finish(claim: nat)

  datatype CanaryRef = CanaryRef(rep: Rep, id: nat, settled: bool, cleaned: set<Storage>)

  datatype Context = Context(canaries: seq<CanaryRef>, sourceCleaned: set<Storage>)

  function WipeRun(rep: Rep, id: nat, storage: Storage): seq<Instr> {
    [Delete(id, storage), Verify(id, storage), MarkRun(rep, id, storage)]
  }

  function WipeSources(n: nat, storage: Storage): seq<Instr>
    decreases SOURCES - n
  {
    if n >= SOURCES then [] else [Delete(n, storage), Verify(n, storage)] + WipeSources(n + 1, storage)
  }

  /** One storage kind of all eight source runs, unless it is already clean. */
  function SourcePart(storage: Storage, skip: set<Storage>, claim: nat): seq<Instr> {
    if storage in skip then [] else WipeSources(0, storage) + [MarkSource(claim, storage)]
  }

  function SourceProgram(storages: seq<Storage>, skip: set<Storage>, claim: nat): seq<Instr> {
    if storages == [] then [] else SourcePart(storages[0], skip, claim) + SourceProgram(storages[1..], skip, claim)
  }

  /** One storage of a repetition, unless its context shows it as clean. */
  function RunPart(ref: CanaryRef, storage: Storage): seq<Instr> {
    if storage in ref.cleaned then [] else WipeRun(ref.rep, ref.id, storage)
  }

  function RunProgram(ref: CanaryRef, storages: seq<Storage>): seq<Instr> {
    if storages == [] then [] else RunPart(ref, storages[0]) + RunProgram(ref, storages[1..])
  }

  function RunsProgram(refs: seq<CanaryRef>): seq<Instr> {
    if refs == [] then [] else RunProgram(refs[0], STORAGES) + RunsProgram(refs[1..])
  }

  /** The finaliser skips what its context shows as clean. */
  function FinaliserProgram(c: Context, claim: nat): seq<Instr> {
    RunsProgram(c.canaries) + SourceProgram(STORAGES, c.sourceCleaned, claim) + [Finish(claim)]
  }

  /** The canary script's own end, after its repetitions are clean. */
  function ClosingProgram(claim: nat): seq<Instr> {
    SourceProgram(STORAGES, {}, claim) + [Finish(claim)]
  }

  /** A resumed terminalization and the recovery sweep redo everything. */
  function SweepProgram(refs: seq<CanaryRef>, claim: nat): seq<Instr> {
    SourceProgram(STORAGES, {}, claim) + RunsProgram(refs) + [Finish(claim)]
  }

  lemma Regroup(a: seq<Instr>, b: seq<Instr>, c: seq<Instr>)
    ensures (a + b) + c == a + (b + c)
  {}

  // ---- Stages ----

  datatype After = Halt | Recheck

  datatype Stage =
    // the canary script
    | Opening
    | Inventory(claim: nat)
    | Loading(rep: Rep)
    | Reserving(rep: Rep)
    | Launching(rep: Rep)
    | Checkpointing(rep: Rep, id: nat)
    | MarkingAmbiguous(rep: Rep)
    | Observing(rep: Rep, id: nat)
    | Recording(rep: Rep, id: nat, evidence: Evidence)
    | Settling(rep: Rep, run: Run)
    | Scrubbing(rep: Rep, run: Run)
    | Beginning(reason: Reason)
    // any cleanup
    | Doing(todo: seq<Instr>, after: After)
    // the finaliser
    | FinOpening
    | FinInventory(claim: nat, sourceCleaned: set<Storage>)
    | FinResuming(claim: nat, context: Context, left: seq<CanaryRef>)
    | FinReading(context: Context, reps: seq<Rep>)
    | FinBeginning(context: Context)
    // the recovery sweep
    | Claiming
    | Halted

  /** `starts` lists the fresh provider starts, each with the invocation that made it; `creator` says
      which invocation's reservation created a repetition; `deleted` holds every storage on which a
      deletion was attempted and `absent` those that are gone. */
  datatype Sys = Sys(journal: Journal, absent: set<(nat, Storage)>, deleted: set<(nat, Storage)>,
                     starts: seq<(Rep, nat)>, creator: map<Rep, nat>, nextRun: nat, procs: seq<Stage>)

  /** What the outside answers at a step: whether the effect succeeded, whether its response was lost
      after it succeeded, what the provider observed, and a fresh token. */
  datatype Choice = Choice(ok: bool, lost: bool, evidence: Evidence, cost: Option<nat>, token: nat)

  /** Outside of the invocations time passes, and an operator resolves an ambiguous repetition by
      adopting a run the provider issued for the canary or by attesting that there is none. */
  datatype Event =
    | Spawn(kind: Stage)
    | Turn(pid: nat, choice: Choice)
    | Crash(pid: nat)
    | Outside(txn: Txn)

  // ---- One step ----

  function RefOf(j: Journal, rep: Rep): seq<CanaryRef> {
    if Has(j, rep) && j.runs[rep].id.Some?
    then [CanaryRef(rep, j.runs[rep].id.value, j.runs[rep].cost.Some?, j.runs[rep].cleaned)]
    else []
  }

  /** The cleanup inventory names the repetitions that have a provider run, and no flags. */
  function InventoryOf(j: Journal): seq<CanaryRef> {
    Unflagged(RefOf(j, First)) + Unflagged(RefOf(j, Second))
  }

  function Unflagged(refs: seq<CanaryRef>): seq<CanaryRef> {
    seq(|refs|, i requires 0 <= i < |refs| => refs[i].(cleaned := {}))
  }

  /** How the script goes on with a repetition that it did not create itself. */
  function Judge(rep: Rep, r: Run): Stage {
    match r.state
    case Starting => MarkingAmbiguous(rep)
    case Running => if r.id.Some? then Observing(rep, r.id.value) else Halted
    case Succeeded => Settling(rep, r)
    case Failed => Settling(rep, r)
    case _ => Halted
  }

  function NextStorage(cleaned: set<Storage>): Option<Storage> {
    if Kvs !in cleaned then Some(Kvs) else if Dataset !in cleaned then Some(Dataset)
    else if Queue !in cleaned then Some(Queue) else None
  }

  function Put(s: Sys, pid: nat, stage: Stage): Sys
    requires pid < |s.procs|
  {
    s.(procs := s.procs[pid := stage])
  }

  /** A durable write: refused or failed writes end the invocation, as does a lost response. */
  function Wrote(s: Sys, pid: nat, result: (Journal, bool), c: Choice, stage: Stage): Sys
    requires pid < |s.procs|
  {
    if !c.ok then Put(s, pid, Halted)
    else Put(s.(journal := result.0), pid, if result.1 && !c.lost then stage else Halted)
  }

  function DoInstr(s: Sys, pid: nat, instr: Instr, rest: seq<Instr>, after: After, c: Choice): Sys
    requires pid < |s.procs|
  {
    match instr
    case Delete(id, storage) =>
      Put(s.(deleted := s.deleted + {(id, storage)},
             absent := if c.ok then s.absent + {(id, storage)} else s.absent), pid, Doing(rest, after))
    case Verify(id, storage) =>
      Put(s, pid, if c.ok && (id, storage) in s.absent then Doing(rest, after) else Halted)
    case MarkRun(rep, id, storage) =>
      var (j, done) := MarkRunStorage(s.journal, rep, id, storage);
      Wrote(s, pid, (j, done), c,
            if rest == [] && after.Recheck? && done then Scrubbing(rep, j.runs[rep]) else Doing(rest, after))
    case MarkSource(claim, storage) =>
      Wrote(s, pid, MarkSourceStorage(s.journal, claim, storage), c, Doing(rest, after))
    case Finish(claim) =>
      Wrote(s, pid, Complete(s.journal, claim), c, Doing(rest, after))
  }

  function Launch(s: Sys, pid: nat, rep: Rep, c: Choice): Sys
    requires pid < |s.procs|
  {
    if !c.ok then Put(s, pid, MarkingAmbiguous(rep))
    else
      Put(s.(starts := s.starts + [(rep, pid)], nextRun := s.nextRun + 1), pid,
          if c.lost then MarkingAmbiguous(rep) else Checkpointing(rep, s.nextRun))
  }

  function ReserveStep(s: Sys, pid: nat, rep: Rep, c: Choice): Sys
    requires pid < |s.procs|
  {
    var (j, reply) := Reserve(s.journal, rep);
    if !c.ok || reply.Refused? then Put(s, pid, Halted)
    else if reply.Created? then
      Put(s.(journal := j, creator := s.creator[rep := pid]), pid, if c.lost then Halted else Launching(rep))
    else Put(s, pid, if Has(j, rep) then Judge(rep, j.runs[rep]) else Halted)
  }

  function AllSettled(c: Context): bool { forall i :: 0 <= i < |c.canaries| ==> c.canaries[i].settled }

  function Adding(c: Context, refs: seq<CanaryRef>): Context { c.(canaries := c.canaries + refs) }

  function FinStep(s: Sys, pid: nat, stage: Stage, c: Choice): Sys
    requires pid < |s.procs|
  {
    var j := s.journal;
    match stage
    case FinOpening =>
      Put(s, pid, if !c.ok || (j.Journal? && j.phase.Finished?) then Halted
                  else if Cleaning(j) then FinInventory(j.phase.claim, j.sourceCleaned)
                  else FinReading(Context([], {}), [First, Second]))
    case FinInventory(claim, sourceCleaned) =>
      Put(s, pid, if c.ok && Holds(j, claim) then FinResuming(claim, Context([], sourceCleaned), InventoryOf(j))
                  else Halted)
    case FinResuming(claim, context, left) =>
      if !c.ok then Put(s, pid, Halted)
      else if left == [] then
        Put(s, pid, if AllSettled(context) then Doing(FinaliserProgram(context, claim), Halt) else Halted)
      else
        var refs := RefOf(j, left[0].rep);
        Put(s, pid, if refs != [] && refs[0].id == left[0].id
                    then FinResuming(claim, Adding(context, refs), left[1..]) else Halted)
    case FinReading(context, left) =>
      if !c.ok then Put(s, pid, Halted)
      else if left == [] then Put(s, pid, if AllSettled(context) then FinBeginning(context) else Halted)
      else if !Has(j, left[0]) then Put(s, pid, FinReading(context, left[1..]))
      else if j.runs[left[0]].id.None? then Put(s, pid, Halted)
      else Put(s, pid, FinReading(Adding(context, RefOf(j, left[0])), left[1..]))
    case FinBeginning(context) =>
      var (j', claim) := Begin(j, Aborted, c.token);
      Wrote(s, pid, (j', claim.Some?), c,
            if claim.Some? then Doing(FinaliserProgram(context, claim.value), Halt) else Halted)
    case _ => s
  }

  function Step(s: Sys, pid: nat, c: Choice): Sys
    requires pid < |s.procs|
  {
    var j := s.journal;
    match s.procs[pid]
    case Opening =>
      Put(s, pid, if !c.ok || (j.Journal? && j.phase.Finished?) then Halted
                  else if Cleaning(j) then Inventory(j.phase.claim) else Loading(First))
    case Inventory(claim) =>
      Put(s, pid, if c.ok && Holds(j, claim) then Doing(SweepProgram(InventoryOf(j), claim), Halt) else Halted)
    case Loading(rep) =>
      Put(s, pid, if !c.ok then Halted else if Has(j, rep) then Judge(rep, j.runs[rep]) else Reserving(rep))
    case Reserving(rep) => ReserveStep(s, pid, rep, c)
    case Launching(rep) => Launch(s, pid, rep, c)
    case Checkpointing(rep, id) =>
      var (j', done) := Checkpoint(j, rep, id);
      if !c.ok then Put(s, pid, MarkingAmbiguous(rep))
      else Put(s.(journal := j'), pid, if done && !c.lost then Observing(rep, id) else MarkingAmbiguous(rep))
    case MarkingAmbiguous(rep) => Wrote(s, pid, MarkAmbiguous(j, rep), c, Halted)
    case Observing(rep, id) =>
      Put(s, pid, if c.ok && ValidEvidence(c.evidence) then Recording(rep, id, c.evidence) else Halted)
    case Recording(rep, id, evidence) =>
      var (j', done) := Terminalize(j, rep, id, evidence);
      Wrote(s, pid, (j', done), c, if done then Settling(rep, j'.runs[rep]) else Halted)
    case Settling(rep, run) =>
      if run.cost.Some? then Put(s, pid, Scrubbing(rep, run))
      else if c.cost.None? || c.cost.value > MAX_OBSERVED_USAGE || run.id.None? then Put(s, pid, Halted)
      else
        var (j', done) := Reconcile(j, rep, run.id.value, c.cost.value);
        Wrote(s, pid, (j', done), c, if done then Scrubbing(rep, j'.runs[rep]) else Halted)
    case Scrubbing(rep, run) =>
      var storage := NextStorage(run.cleaned);
      Put(s, pid, if run.id.None? then Halted
                  else if storage.Some? then Doing(WipeRun(rep, run.id.value, storage.value), Recheck)
                  else if run.gate != Some(true) then Beginning(StrictFailure)
                  else if rep.First? then Loading(Second) else Beginning(Completed))
    case Beginning(reason) =>
      var (j', claim) := Begin(j, reason, c.token);
      Wrote(s, pid, (j', claim.Some?), c, if claim.Some? then Doing(ClosingProgram(claim.value), Halt) else Halted)
    case Doing(todo, after) =>
      if todo == [] then Put(s, pid, Halted) else DoInstr(s, pid, todo[0], todo[1..], after, c)
    case Claiming =>
      Wrote(s, pid, ClaimExpired(j, c.token), c, Inventory(c.token))
    case Halted => s
    case stage => FinStep(s, pid, stage, c)
  }

  predicate Enabled(s: Sys, e: Event) {
    match e
    case Spawn(kind) => kind.Opening? || kind.FinOpening? || kind.Claiming?
    case Turn(pid, _) => pid < |s.procs|
    case Crash(pid) => pid < |s.procs|
    case Outside(t) => (t.TAdopt? && SOURCES <= t.id < s.nextRun) || t.TNoRun? || t.TTick?
  }

  function Next(s: Sys, e: Event): Sys
    requires Enabled(s, e)
  {
    match e
    case Spawn(kind) => s.(procs := s.procs + [kind])
    case Turn(pid, choice) => Step(s, pid, choice)
    case Crash(pid) => Put(s, pid, Halted)
    case Outside(txn) => s.(journal := Commit(s.journal, txn))
  }

  /** Every state the system can come to, whatever runs, fails and is retried. */
  ghost predicate Reaches(s: Sys, events: seq<Event>, t: Sys)
    decreases events
  {
    if events == [] then t == s
    else Enabled(s, events[0]) && Reaches(Next(s, events[0]), events[1..], t)
  }

  function Start(now: nat): Sys { Sys(NoJournal(now), {}, {}, [], map[], SOURCES, []) }
}
