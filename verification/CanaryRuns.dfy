/** What every run of the canary protocol keeps, over any number of invocations, crashes, lost
    responses and operator resolutions. */
module CanaryRuns {
  import opened Basics
  import opened CanaryJournal
  import opened CanaryProcesses

  // ---- Invariants ----

  predicate Settled(j: Journal, rep: Rep, id: nat) {
    Has(j, rep) && j.runs[rep].id == Some(id) && j.runs[rep].cost.Some?
  }

  /** When a storage may be deleted: a source storage once terminalization has begun, a canary
      storage once the cost of its run is settled. */
  ghost predicate Due(j: Journal, id: nat) {
    if id < SOURCES then Cleaning(j) else exists rep :: Settled(j, rep, id)
  }

  ghost predicate RowAbsent(absent: set<(nat, Storage)>, storage: Storage) {
    forall n: nat :: n < SOURCES ==> (n, storage) in absent
  }

  /** Every deletion a program will attempt is due, and every flag it will write is preceded by the
      verifications that flag stands for. */
  ghost predicate Justified(j: Journal, absent: set<(nat, Storage)>, todo: seq<Instr>)
    decreases todo
  {
    todo != [] ==>
      match todo[0]
      case Delete(id, _) => Due(j, id) && Justified(j, absent, todo[1..])
      case Verify(id, storage) => Justified(j, absent + {(id, storage)}, todo[1..])
      case MarkRun(_, id, storage) => (id, storage) in absent && Justified(j, absent, todo[1..])
      case MarkSource(_, storage) => RowAbsent(absent, storage) && Justified(j, absent, todo[1..])
      case Finish(_) => Justified(j, absent, todo[1..])
  }

  predicate RefOk(j: Journal, ref: CanaryRef) {
    Has(j, ref.rep) && j.runs[ref.rep].id == Some(ref.id)
    && (ref.settled ==> j.runs[ref.rep].cost.Some?) && ref.cleaned <= j.runs[ref.rep].cleaned
  }

  ghost predicate ContextOk(j: Journal, c: Context) {
    && (forall i :: 0 <= i < |c.canaries| ==> RefOk(j, c.canaries[i]))
    && (c.sourceCleaned == {} || (j.Journal? && c.sourceCleaned <= j.sourceCleaned))
  }

  ghost predicate NoStart(starts: seq<(Rep, nat)>, rep: Rep) {
    forall i :: 0 <= i < |starts| ==> starts[i].0 != rep
  }

  predicate RecordOk(j: Journal, rep: Rep, run: Run) {
    Has(j, rep) && RunGrew(run, j.runs[rep]) && run.id.Some? && Ended(run)
  }

  ghost predicate StageOk(s: Sys, pid: nat, stage: Stage) {
    match stage
    case Launching(rep) => rep in s.creator && s.creator[rep] == pid && NoStart(s.starts, rep)
    case Checkpointing(rep, id) => SOURCES <= id < s.nextRun
    case Observing(rep, id) => Has(s.journal, rep) && s.journal.runs[rep].id == Some(id)
    case Recording(rep, id, _) => Has(s.journal, rep) && s.journal.runs[rep].id == Some(id)
    case Settling(rep, run) => RecordOk(s.journal, rep, run)
    case Scrubbing(rep, run) => RecordOk(s.journal, rep, run) && run.cost.Some?
    case Doing(todo, _) => Justified(s.journal, s.absent, todo)
    case FinInventory(_, sourceCleaned) => ContextOk(s.journal, Context([], sourceCleaned))
    case FinResuming(_, context, _) => ContextOk(s.journal, context) && Cleaning(s.journal)
    case FinReading(context, _) => ContextOk(s.journal, context)
    case FinBeginning(context) => ContextOk(s.journal, context) && AllSettled(context)
    case _ => true
  }

  function Reps(j: Journal): set<Rep> { if j.Journal? then j.runs.Keys else {} }

  /** A repetition's fresh start was made once, by the invocation whose reservation created it. */
  ghost predicate StartsOk(starts: seq<(Rep, nat)>, creator: map<Rep, nat>) {
    && (forall i :: 0 <= i < |starts| ==> starts[i].0 in creator && creator[starts[i].0] == starts[i].1)
    && (forall i, k :: 0 <= i < k < |starts| ==> starts[i].0 != starts[k].0)
  }

  ghost predicate IdsOk(j: Journal, nextRun: nat) {
    forall rep :: Has(j, rep) && j.runs[rep].id.Some? ==> SOURCES <= j.runs[rep].id.value < nextRun
  }

  /** A cleaned flag stands for storages that are gone: one for a repetition, all eight for a source. */
  ghost predicate CleanedAbsent(j: Journal, absent: set<(nat, Storage)>) {
    && (forall rep, storage :: Has(j, rep) && storage in j.runs[rep].cleaned ==>
          j.runs[rep].id.Some? && (j.runs[rep].id.value, storage) in absent)
    && (j.Journal? ==> forall storage :: storage in j.sourceCleaned ==> RowAbsent(absent, storage))
  }

  ghost predicate DeletedDue(j: Journal, deleted: set<(nat, Storage)>) {
    forall id, storage :: (id, storage) in deleted ==> Due(j, id)
  }

  ghost predicate WorldOk(s: Sys) {
    JournalOk(s.journal) && s.creator.Keys == Reps(s.journal) && StartsOk(s.starts, s.creator)
    && IdsOk(s.journal, s.nextRun) && SOURCES <= s.nextRun
    && CleanedAbsent(s.journal, s.absent) && DeletedDue(s.journal, s.deleted)
  }

  ghost predicate SysOk(s: Sys) {
    WorldOk(s) && forall pid :: 0 <= pid < |s.procs| ==> StageOk(s, pid, s.procs[pid])
  }

  // ---- Facts only accumulate ----

  lemma DueStays(j: Journal, j': Journal, id: nat)
    requires Grew(j, j') && Due(j, id)
    ensures Due(j', id)
  {
    if id >= SOURCES {
      var rep :| Settled(j, rep, id);
      assert RunGrew(j.runs[rep], j'.runs[rep]);
      assert Settled(j', rep, id);
    }
  }

  lemma {:induction false} JustifiedStays(j: Journal, j': Journal, absent: set<(nat, Storage)>,
                                          absent': set<(nat, Storage)>, todo: seq<Instr>)
    requires Grew(j, j') && absent <= absent' && Justified(j, absent, todo)
    ensures Justified(j', absent', todo)
    decreases todo
  {
    if todo != [] {
      match todo[0]
      case Delete(id, _) => DueStays(j, j', id); JustifiedStays(j, j', absent, absent', todo[1..]);
      case Verify(id, storage) =>
        JustifiedStays(j, j', absent + {(id, storage)}, absent' + {(id, storage)}, todo[1..]);
      case _ => JustifiedStays(j, j', absent, absent', todo[1..]);
    }
  }

  /** What a step may change, as far as the other invocations are concerned. */
  ghost predicate Later(s: Sys, s': Sys, pid: nat) {
    && Grew(s.journal, s'.journal) && s.absent <= s'.absent && s.nextRun <= s'.nextRun
    && (forall rep :: rep in s.creator ==> rep in s'.creator && s'.creator[rep] == s.creator[rep])
    && (forall rep :: rep in s.creator && s.creator[rep] == pid && NoStart(s.starts, rep) ==>
          NoStart(s'.starts, rep))
  }

  lemma RecordStays(j: Journal, j': Journal, rep: Rep, run: Run)
    requires Grew(j, j') && RecordOk(j, rep, run)
    ensures RecordOk(j', rep, run)
  {
    assert RunGrew(j.runs[rep], j'.runs[rep]);
  }

  lemma ContextStays(j: Journal, j': Journal, c: Context)
    requires Grew(j, j') && ContextOk(j, c)
    ensures ContextOk(j', c)
  {
    forall i | 0 <= i < |c.canaries| ensures RefOk(j', c.canaries[i]) {
      assert RefOk(j, c.canaries[i]);
      assert RunGrew(j.runs[c.canaries[i].rep], j'.runs[c.canaries[i].rep]);
    }
  }

  lemma StageStays(s: Sys, s': Sys, pid: nat, stage: Stage)
    requires StageOk(s, pid, stage) && Later(s, s', pid)
    ensures StageOk(s', pid, stage)
  {
    match stage
    case Observing(rep, id) => assert RunGrew(s.journal.runs[rep], s'.journal.runs[rep]);
    case Recording(rep, id, _) => assert RunGrew(s.journal.runs[rep], s'.journal.runs[rep]);
    case Settling(rep, run) => RecordStays(s.journal, s'.journal, rep, run);
    case Scrubbing(rep, run) => RecordStays(s.journal, s'.journal, rep, run);
    case Doing(todo, _) => JustifiedStays(s.journal, s'.journal, s.absent, s'.absent, todo);
    case FinInventory(_, sourceCleaned) => ContextStays(s.journal, s'.journal, Context([], sourceCleaned));
    case FinResuming(_, context, _) => ContextStays(s.journal, s'.journal, context);
    case FinReading(context, _) => ContextStays(s.journal, s'.journal, context);
    case FinBeginning(context) => ContextStays(s.journal, s'.journal, context);
    case _ =>
  }

  // ---- A transaction, seen from the world ----

  /** What a transaction must rest on for the flags and ids it writes to be true of the world. */
  ghost predicate Grounded(s: Sys, t: Txn) {
    && (t.TCheckpoint? || t.TAdopt? ==> SOURCES <= t.id < s.nextRun)
    && (t.TMarkRun? ==> (t.id, t.storage) in s.absent)
    && (t.TMarkSource? ==> RowAbsent(s.absent, t.storage))
    && !t.TReserve?
  }

  /** Which ids and flags a transaction can write. */
  ghost predicate WroteOnly(j: Journal, t: Txn, j': Journal, rep: Rep) {
    && (Has(j', rep) <==> Has(j, rep))
    && (Has(j, rep) ==>
          && (j'.runs[rep].id == j.runs[rep].id || ((t.TCheckpoint? || t.TAdopt?) && j'.runs[rep].id == Some(t.id)))
          && (forall storage :: storage in j'.runs[rep].cleaned && storage !in j.runs[rep].cleaned ==>
                t.TMarkRun? && storage == t.storage && j'.runs[rep].id == Some(t.id)))
  }

  lemma RecordWrites(j: Journal, t: Txn, rep: Rep)
    requires t.TCheckpoint? || t.TAmbiguous? || t.TTerminalize? || t.TReconcile? || t.TAdopt?
    ensures WroteOnly(j, t, Commit(j, t), rep)
  {
    match t
    case TCheckpoint(_, _) =>
    case TAmbiguous(_) =>
    case TTerminalize(_, _, _) =>
    case TReconcile(_, _, _) =>
    case TAdopt(_, _) =>
  }

  lemma PhaseWrites(j: Journal, t: Txn, rep: Rep)
    requires t.TNoRun? || t.TBegin? || t.TClaimExpired? || t.TMarkSource? || t.TComplete? || t.TTick?
    ensures WroteOnly(j, t, Commit(j, t), rep)
  {
    match t
    case TNoRun(_, _) =>
    case TBegin(_, _) =>
    case TClaimExpired(_) =>
    case TMarkSource(_, _) =>
    case TComplete(_) =>
    case TTick(_) =>
  }

  lemma MarkWrites(j: Journal, t: Txn, rep: Rep)
    requires t.TMarkRun?
    ensures WroteOnly(j, t, Commit(j, t), rep)
  {}

  ghost predicate WroteSource(j: Journal, t: Txn, j': Journal) {
    j.Journal? == j'.Journal?
    && (j.Journal? ==> forall storage :: storage in j'.sourceCleaned && storage !in j.sourceCleaned ==>
          t.TMarkSource? && storage == t.storage)
  }

  lemma CommitWritesSource(j: Journal, t: Txn)
    requires !t.TReserve?
    ensures WroteSource(j, t, Commit(j, t))
  {}

  /** Everything the world needs to know about a transaction. */
  ghost predicate Moved(j: Journal, t: Txn, j': Journal) {
    JournalOk(j') && Grew(j, j') && (forall rep :: WroteOnly(j, t, j', rep)) && WroteSource(j, t, j')
  }

  lemma CommitMoved(j: Journal, t: Txn)
    requires JournalOk(j) && !t.TReserve?
    ensures Moved(j, t, Commit(j, t))
  {
    CommitOk(j, t);
    CommitWritesSource(j, t);
    forall rep ensures WroteOnly(j, t, Commit(j, t), rep) {
      if t.TMarkRun? { MarkWrites(j, t, rep); }
      else if t.TNoRun? || t.TBegin? || t.TClaimExpired? || t.TMarkSource? || t.TComplete? || t.TTick? {
        PhaseWrites(j, t, rep);
      } else { RecordWrites(j, t, rep); }
    }
  }

  lemma MovedFlags(s: Sys, t: Txn, j': Journal)
    requires WorldOk(s) && Grounded(s, t) && Moved(s.journal, t, j')
    ensures CleanedAbsent(j', s.absent) && IdsOk(j', s.nextRun) && Reps(j') == Reps(s.journal)
  {
    var j := s.journal;
    forall rep, storage | Has(j', rep) && storage in j'.runs[rep].cleaned
      ensures j'.runs[rep].id.Some? && (j'.runs[rep].id.value, storage) in s.absent
    {
      assert WroteOnly(j, t, j', rep) && RunGrew(j.runs[rep], j'.runs[rep]);
    }
    forall rep | Has(j', rep) && j'.runs[rep].id.Some? ensures SOURCES <= j'.runs[rep].id.value < s.nextRun {
      assert WroteOnly(j, t, j', rep);
    }
    forall rep ensures rep in Reps(j') <==> rep in Reps(j) {
      assert WroteOnly(j, t, j', rep);
    }
  }

  lemma MovedWorld(s: Sys, t: Txn, j': Journal)
    requires WorldOk(s) && Grounded(s, t) && Moved(s.journal, t, j')
    ensures WorldOk(s.(journal := j'))
  {
    MovedFlags(s, t, j');
    forall id, storage | (id, storage) in s.deleted ensures Due(j', id) {
      DueStays(s.journal, j', id);
    }
  }

  // ---- The programs are justified ----

  function RowFrom(n: nat, storage: Storage): set<(nat, Storage)>
    decreases SOURCES - n
  {
    if n >= SOURCES then {} else {(n, storage)} + RowFrom(n + 1, storage)
  }

  lemma {:induction false} RowFromHas(n: nat, m: nat, storage: Storage)
    requires n <= m < SOURCES
    ensures (m, storage) in RowFrom(n, storage)
    decreases SOURCES - n
  {
    if n < m { RowFromHas(n + 1, m, storage); }
  }

  lemma AttemptJustified(j: Journal, absent: set<(nat, Storage)>, id: nat, storage: Storage, rest: seq<Instr>)
    requires Due(j, id) && Justified(j, absent + {(id, storage)}, rest)
    ensures Justified(j, absent, [Delete(id, storage), Verify(id, storage)] + rest)
  {
    var verified := [Verify(id, storage)] + rest;
    assert verified[1..] == rest;
    assert [Delete(id, storage), Verify(id, storage)] + rest == [Delete(id, storage)] + verified;
    assert ([Delete(id, storage)] + verified)[1..] == verified;
  }

  lemma {:induction false} WipeSourcesJustified(j: Journal, absent: set<(nat, Storage)>, n: nat, storage: Storage,
                                                rest: seq<Instr>)
    requires Cleaning(j) && Justified(j, absent + RowFrom(n, storage), rest)
    ensures Justified(j, absent, WipeSources(n, storage) + rest)
    decreases SOURCES - n
  {
    if n >= SOURCES {
      assert WipeSources(n, storage) + rest == rest && absent + RowFrom(n, storage) == absent;
    } else {
      assert absent + RowFrom(n, storage) == absent + {(n, storage)} + RowFrom(n + 1, storage);
      WipeSourcesJustified(j, absent + {(n, storage)}, n + 1, storage, rest);
      AttemptJustified(j, absent, n, storage, WipeSources(n + 1, storage) + rest);
      assert WipeSources(n, storage) + rest
          == [Delete(n, storage), Verify(n, storage)] + (WipeSources(n + 1, storage) + rest);
    }
  }

  lemma MarkSourceJustified(j: Journal, absent: set<(nat, Storage)>, from: nat, storage: Storage, claim: nat,
                            rest: seq<Instr>)
    requires from == 0 && Justified(j, absent, rest)
    ensures Justified(j, absent + RowFrom(from, storage), [MarkSource(claim, storage)] + rest)
  {
    var wiped := absent + RowFrom(from, storage);
    JustifiedStays(j, j, absent, wiped, rest);
    assert ([MarkSource(claim, storage)] + rest)[1..] == rest;
    forall n: nat | n < SOURCES ensures (n, storage) in wiped { RowFromHas(from, n, storage); }
  }

  lemma SourcePartJustified(j: Journal, absent: set<(nat, Storage)>, storage: Storage, skip: set<Storage>, claim: nat,
                            rest: seq<Instr>)
    requires Cleaning(j) && Justified(j, absent, rest)
    ensures Justified(j, absent, SourcePart(storage, skip, claim) + rest)
  {
    if storage in skip {
      assert SourcePart(storage, skip, claim) + rest == rest;
    } else {
      MarkSourceJustified(j, absent, 0, storage, claim, rest);
      WipeSourcesJustified(j, absent, 0, storage, [MarkSource(claim, storage)] + rest);
      Regroup(WipeSources(0, storage), [MarkSource(claim, storage)], rest);
    }
  }

  lemma {:induction false} SourceProgramJustified(j: Journal, absent: set<(nat, Storage)>, storages: seq<Storage>,
                                                  skip: set<Storage>, claim: nat, rest: seq<Instr>)
    requires Cleaning(j) && Justified(j, absent, rest)
    ensures Justified(j, absent, SourceProgram(storages, skip, claim) + rest)
    decreases storages
  {
    if storages == [] {
      assert SourceProgram(storages, skip, claim) + rest == rest;
    } else {
      var tail := SourceProgram(storages[1..], skip, claim);
      SourceProgramJustified(j, absent, storages[1..], skip, claim, rest);
      SourcePartJustified(j, absent, storages[0], skip, claim, tail + rest);
      Regroup(SourcePart(storages[0], skip, claim), tail, rest);
    }
  }

  lemma RunPartJustified(j: Journal, absent: set<(nat, Storage)>, ref: CanaryRef, storage: Storage, rest: seq<Instr>)
    requires Due(j, ref.id) && Justified(j, absent, rest)
    ensures Justified(j, absent, RunPart(ref, storage) + rest)
  {
    if storage in ref.cleaned {
      assert RunPart(ref, storage) + rest == rest;
    } else {
      var marked := [MarkRun(ref.rep, ref.id, storage)] + rest;
      JustifiedStays(j, j, absent, absent + {(ref.id, storage)}, rest);
      assert marked[1..] == rest;
      AttemptJustified(j, absent, ref.id, storage, marked);
      assert RunPart(ref, storage) + rest == [Delete(ref.id, storage), Verify(ref.id, storage)] + marked;
    }
  }

  lemma {:induction false} RunProgramJustified(j: Journal, absent: set<(nat, Storage)>, ref: CanaryRef,
                                               storages: seq<Storage>, rest: seq<Instr>)
    requires Due(j, ref.id) && Justified(j, absent, rest)
    ensures Justified(j, absent, RunProgram(ref, storages) + rest)
    decreases storages
  {
    if storages == [] {
      assert RunProgram(ref, storages) + rest == rest;
    } else {
      var tail := RunProgram(ref, storages[1..]);
      RunProgramJustified(j, absent, ref, storages[1..], rest);
      RunPartJustified(j, absent, ref, storages[0], tail + rest);
      Regroup(RunPart(ref, storages[0]), tail, rest);
    }
  }

  ghost predicate AllDue(j: Journal, refs: seq<CanaryRef>) { forall i :: 0 <= i < |refs| ==> Due(j, refs[i].id) }

  lemma {:induction false} RunsProgramJustified(j: Journal, absent: set<(nat, Storage)>, refs: seq<CanaryRef>,
                                                rest: seq<Instr>)
    requires AllDue(j, refs) && Justified(j, absent, rest)
    ensures Justified(j, absent, RunsProgram(refs) + rest)
    decreases refs
  {
    if refs == [] {
      assert RunsProgram(refs) + rest == rest;
    } else {
      var tail := RunsProgram(refs[1..]);
      assert AllDue(j, refs[1..]);
      RunsProgramJustified(j, absent, refs[1..], rest);
      RunProgramJustified(j, absent, refs[0], STORAGES, tail + rest);
      Regroup(RunProgram(refs[0], STORAGES), tail, rest);
    }
  }

  lemma FinishJustified(j: Journal, absent: set<(nat, Storage)>, claim: nat)
    ensures Justified(j, absent, [Finish(claim)])
  {
    assert [Finish(claim)][1..] == [];
  }

  lemma ClosingJustified(j: Journal, absent: set<(nat, Storage)>, claim: nat)
    requires Cleaning(j)
    ensures Justified(j, absent, ClosingProgram(claim))
  {
    FinishJustified(j, absent, claim);
    SourceProgramJustified(j, absent, STORAGES, {}, claim, [Finish(claim)]);
  }

  lemma SweepJustified(j: Journal, absent: set<(nat, Storage)>, refs: seq<CanaryRef>, claim: nat)
    requires Cleaning(j) && AllDue(j, refs)
    ensures Justified(j, absent, SweepProgram(refs, claim))
  {
    FinishJustified(j, absent, claim);
    RunsProgramJustified(j, absent, refs, [Finish(claim)]);
    SourceProgramJustified(j, absent, STORAGES, {}, claim, RunsProgram(refs) + [Finish(claim)]);
    assert SweepProgram(refs, claim) == SourceProgram(STORAGES, {}, claim) + (RunsProgram(refs) + [Finish(claim)]);
  }

  lemma FinaliserJustified(j: Journal, absent: set<(nat, Storage)>, c: Context, claim: nat)
    requires Cleaning(j) && AllDue(j, c.canaries)
    ensures Justified(j, absent, FinaliserProgram(c, claim))
  {
    FinishJustified(j, absent, claim);
    SourceProgramJustified(j, absent, STORAGES, c.sourceCleaned, claim, [Finish(claim)]);
    var rest := SourceProgram(STORAGES, c.sourceCleaned, claim) + [Finish(claim)];
    RunsProgramJustified(j, absent, c.canaries, rest);
    assert FinaliserProgram(c, claim) == RunsProgram(c.canaries) + rest;
  }

  // ---- One step of one invocation ----

  /** The new state of the world is consistent, the stepping invocation knows only true things, and
      nobody else loses anything. */
  ghost predicate StepOk(s: Sys, s': Sys, pid: nat) {
    && |s'.procs| == |s.procs| && pid < |s.procs| && s'.procs == s.procs[pid := s'.procs[pid]]
    && WorldOk(s') && StageOk(s', pid, s'.procs[pid])
    && forall other :: other != pid ==> Later(s, s', other)
  }

  lemma QuietOk(s: Sys, pid: nat, stage: Stage)
    requires WorldOk(s) && pid < |s.procs| && StageOk(s, pid, stage)
    ensures StepOk(s, Put(s, pid, stage), pid)
  {}

  lemma StageIgnoresProcs(s: Sys, procs: seq<Stage>, pid: nat, stage: Stage)
    requires StageOk(s, pid, stage)
    ensures StageOk(s.(procs := procs), pid, stage)
  {}

  /** A step whose only durable effect is a grounded transaction. */
  lemma WriteOk(s: Sys, t: Txn, j': Journal, pid: nat, stage: Stage)
    requires WorldOk(s) && Grounded(s, t) && pid < |s.procs| && Moved(s.journal, t, j')
    requires StageOk(s.(journal := j'), pid, stage)
    ensures StepOk(s, Put(s.(journal := j'), pid, stage), pid)
  {
    MovedWorld(s, t, j');
    StageIgnoresProcs(s.(journal := j'), s.procs[pid := stage], pid, stage);
  }

  lemma LaunchOk(s: Sys, pid: nat, rep: Rep, c: Choice)
    requires WorldOk(s) && pid < |s.procs| && StageOk(s, pid, Launching(rep))
    ensures StepOk(s, Launch(s, pid, rep, c), pid)
  {
    var s' := Launch(s, pid, rep, c);
    if c.ok {
      assert s'.starts == s.starts + [(rep, pid)];
    }
  }

  /** A created reservation adds one blank record. */
  lemma CreatedShape(j: Journal, rep: Rep)
    requires Reserve(j, rep).1.Created?
    ensures var j' := Reserve(j, rep).0;
      && rep !in Reps(j) && Reps(j') == Reps(j) + {rep} && j'.Journal?
      && j'.runs[rep] == Reserved(j.now) && (forall r :: r in Reps(j) ==> j'.runs[r] == j.runs[r])
      && j'.sourceCleaned == if j.Journal? then j.sourceCleaned else {}
  {}

  lemma CreatedFlags(s: Sys, rep: Rep, j': Journal)
    requires CleanedAbsent(s.journal, s.absent) && IdsOk(s.journal, s.nextRun)
    requires Reserve(s.journal, rep) == (j', Created)
    ensures CleanedAbsent(j', s.absent) && IdsOk(j', s.nextRun)
  {
    CreatedShape(s.journal, rep);
    forall r | Has(j', r) && r != rep ensures Has(s.journal, r) && j'.runs[r] == s.journal.runs[r] {}
  }

  lemma CreatedWorld(s: Sys, pid: nat, rep: Rep, j': Journal)
    requires WorldOk(s) && Reserve(s.journal, rep) == (j', Created)
    ensures WorldOk(s.(journal := j', creator := s.creator[rep := pid]))
  {
    CreatedShape(s.journal, rep);
    CreatedFlags(s, rep, j');
    ReserveOk(s.journal, rep);
    forall id, storage | (id, storage) in s.deleted ensures Due(j', id) { DueStays(s.journal, j', id); }
  }

  lemma CreatedLater(s: Sys, pid: nat, rep: Rep, j': Journal, other: nat)
    requires WorldOk(s) && Reserve(s.journal, rep) == (j', Created) && other != pid
    ensures Later(s, s.(journal := j', creator := s.creator[rep := pid]), other)
    ensures NoStart(s.starts, rep)
  {
    CreatedShape(s.journal, rep);
    ReserveOk(s.journal, rep);
  }

  lemma ReserveStepOk(s: Sys, pid: nat, rep: Rep, c: Choice)
    requires WorldOk(s) && pid < |s.procs|
    ensures StepOk(s, ReserveStep(s, pid, rep, c), pid)
  {
    var (j', reply) := Reserve(s.journal, rep);
    var s' := ReserveStep(s, pid, rep, c);
    if c.ok && reply.Created? {
      CreatedWorld(s, pid, rep, j');
      CreatedLater(s, pid, rep, j', pid + 1);
      forall other | other != pid ensures Later(s, s', other) { CreatedLater(s, pid, rep, j', other); }
    } else {
      if c.ok && reply.Existing? { JudgeOk(s, pid, rep); }
      QuietOk(s, pid, s'.procs[pid]);
    }
  }

  lemma JudgeOk(s: Sys, pid: nat, rep: Rep)
    requires WorldOk(s) && Has(s.journal, rep)
    ensures StageOk(s, pid, Judge(rep, s.journal.runs[rep]))
  {
    assert RunOk(s.journal.runs[rep]);
  }

  lemma DeleteOk(s: Sys, pid: nat, id: nat, storage: Storage, rest: seq<Instr>, after: After, c: Choice)
    requires WorldOk(s) && pid < |s.procs| && Due(s.journal, id) && Justified(s.journal, s.absent, rest)
    ensures StepOk(s, DoInstr(s, pid, Delete(id, storage), rest, after, c), pid)
  {
    var s' := DoInstr(s, pid, Delete(id, storage), rest, after, c);
    JustifiedStays(s.journal, s.journal, s.absent, s'.absent, rest);
  }

  /** The durable write of a step, whether it fails, is refused or loses its response. */
  lemma WroteOk(s: Sys, t: Txn, j': Journal, done: bool, pid: nat, c: Choice, stage: Stage)
    requires WorldOk(s) && Grounded(s, t) && pid < |s.procs| && Moved(s.journal, t, j')
    requires done ==> StageOk(s.(journal := j'), pid, stage)
    ensures StepOk(s, Wrote(s, pid, (j', done), c, stage), pid)
  {
    if c.ok {
      WriteOk(s, t, j', pid, if done && !c.lost then stage else Halted);
    } else {
      QuietOk(s, pid, Halted);
    }
  }

  lemma MovedDo(s: Sys, t: Txn, j': Journal, done: bool, pid: nat, c: Choice, rest: seq<Instr>, after: After)
    requires WorldOk(s) && Grounded(s, t) && pid < |s.procs| && Moved(s.journal, t, j')
    requires Justified(s.journal, s.absent, rest)
    ensures StepOk(s, Wrote(s, pid, (j', done), c, Doing(rest, after)), pid)
  {
    JustifiedStays(s.journal, j', s.absent, s.absent, rest);
    WroteOk(s, t, j', done, pid, c, Doing(rest, after));
  }

  lemma DidOk(s: Sys, t: Txn, j': Journal, done: bool, pid: nat, c: Choice, rest: seq<Instr>, after: After)
    requires WorldOk(s) && Grounded(s, t) && pid < |s.procs| && j' == Commit(s.journal, t)
    requires Justified(s.journal, s.absent, rest)
    ensures StepOk(s, Wrote(s, pid, (j', done), c, Doing(rest, after)), pid)
  {
    CommitMoved(s.journal, t);
    MovedDo(s, t, j', done, pid, c, rest, after);
  }

  lemma CommittedOk(s: Sys, t: Txn, j': Journal, done: bool, pid: nat, c: Choice, stage: Stage)
    requires WorldOk(s) && Grounded(s, t) && pid < |s.procs| && j' == Commit(s.journal, t)
    requires done ==> StageOk(s.(journal := j'), pid, stage)
    ensures StepOk(s, Wrote(s, pid, (j', done), c, stage), pid)
  {
    CommitMoved(s.journal, t);
    WroteOk(s, t, j', done, pid, c, stage);
  }

  lemma MarkedRecordOk(j: Journal, rep: Rep, id: nat, storage: Storage)
    requires JournalOk(j) && MarkRunStorage(j, rep, id, storage).1
    ensures var j' := MarkRunStorage(j, rep, id, storage).0; RecordOk(j', rep, j'.runs[rep]) && j'.runs[rep].cost.Some?
  {
    assert RunOk(j.runs[rep]);
  }

  lemma MarkRunOk(s: Sys, pid: nat, rep: Rep, id: nat, storage: Storage, rest: seq<Instr>, after: After, c: Choice)
    requires WorldOk(s) && pid < |s.procs| && (id, storage) in s.absent && Justified(s.journal, s.absent, rest)
    ensures StepOk(s, DoInstr(s, pid, MarkRun(rep, id, storage), rest, after, c), pid)
  {
    var (j', done) := MarkRunStorage(s.journal, rep, id, storage);
    if rest == [] && after.Recheck? && done {
      MarkedRecordOk(s.journal, rep, id, storage);
      CommittedOk(s, TMarkRun(rep, id, storage), j', done, pid, c, Scrubbing(rep, j'.runs[rep]));
    } else {
      DidOk(s, TMarkRun(rep, id, storage), j', done, pid, c, rest, after);
    }
  }

  lemma MarkSourceOk(s: Sys, pid: nat, claim: nat, storage: Storage, rest: seq<Instr>, after: After, c: Choice)
    requires WorldOk(s) && pid < |s.procs| && RowAbsent(s.absent, storage) && Justified(s.journal, s.absent, rest)
    ensures StepOk(s, DoInstr(s, pid, MarkSource(claim, storage), rest, after, c), pid)
  {
    var (j', done) := MarkSourceStorage(s.journal, claim, storage);
    DidOk(s, TMarkSource(claim, storage), j', done, pid, c, rest, after);
  }

  lemma FinishOk(s: Sys, pid: nat, claim: nat, rest: seq<Instr>, after: After, c: Choice)
    requires WorldOk(s) && pid < |s.procs| && Justified(s.journal, s.absent, rest)
    ensures StepOk(s, DoInstr(s, pid, Finish(claim), rest, after, c), pid)
  {
    var (j', done) := Complete(s.journal, claim);
    DidOk(s, TComplete(claim), j', done, pid, c, rest, after);
  }

  lemma DoingOk(s: Sys, pid: nat, todo: seq<Instr>, after: After, c: Choice)
    requires WorldOk(s) && pid < |s.procs| && todo != [] && Justified(s.journal, s.absent, todo)
    ensures StepOk(s, DoInstr(s, pid, todo[0], todo[1..], after, c), pid)
  {
    match todo[0]
    case Delete(id, storage) => DeleteOk(s, pid, id, storage, todo[1..], after, c);
    case Verify(id, storage) =>
      if (id, storage) in s.absent { assert s.absent + {(id, storage)} == s.absent; }
      QuietOk(s, pid, DoInstr(s, pid, todo[0], todo[1..], after, c).procs[pid]);
    case MarkRun(rep, id, storage) => MarkRunOk(s, pid, rep, id, storage, todo[1..], after, c);
    case MarkSource(claim, storage) => MarkSourceOk(s, pid, claim, storage, todo[1..], after, c);
    case Finish(claim) => FinishOk(s, pid, claim, todo[1..], after, c);
  }

  // ---- The finaliser's steps ----

  lemma RefOfOk(j: Journal, rep: Rep)
    requires Has(j, rep) ==> RunOk(j.runs[rep])
    ensures forall i :: 0 <= i < |RefOf(j, rep)| ==> RefOk(j, RefOf(j, rep)[i]) && RefOf(j, rep)[i].rep == rep
    ensures Cleaning(j) && JournalOk(j) ==> AllDue(j, RefOf(j, rep))
  {
    if RefOf(j, rep) != [] && Cleaning(j) && JournalOk(j) {
      assert Ready(j.runs[rep]) && Settled(j, rep, j.runs[rep].id.value);
    }
  }

  lemma InventoryDue(j: Journal)
    requires JournalOk(j) && Cleaning(j)
    ensures AllDue(j, InventoryOf(j))
  {
    RefOfOk(j, First);
    RefOfOk(j, Second);
    forall i | 0 <= i < |InventoryOf(j)| ensures Due(j, InventoryOf(j)[i].id) {
      var n := |RefOf(j, First)|;
      if i < n {
        assert Due(j, RefOf(j, First)[i].id);
      } else {
        assert Due(j, RefOf(j, Second)[i - n].id);
      }
    }
  }

  lemma ContextDue(j: Journal, c: Context, n: nat)
    requires ContextOk(j, c) && AllSettled(c) && IdsOk(j, n) && SOURCES <= n
    ensures AllDue(j, c.canaries)
  {
    forall i | 0 <= i < |c.canaries| ensures Due(j, c.canaries[i].id) {
      var ref := c.canaries[i];
      assert RefOk(j, ref) && Settled(j, ref.rep, ref.id);
    }
  }

  lemma AddingOk(j: Journal, c: Context, refs: seq<CanaryRef>)
    requires ContextOk(j, c) && forall i :: 0 <= i < |refs| ==> RefOk(j, refs[i])
    ensures ContextOk(j, Adding(c, refs))
  {}

  lemma FinResumingOk(s: Sys, pid: nat, claim: nat, context: Context, left: seq<CanaryRef>, c: Choice)
    requires WorldOk(s) && pid < |s.procs| && StageOk(s, pid, FinResuming(claim, context, left))
    ensures StepOk(s, FinStep(s, pid, FinResuming(claim, context, left), c), pid)
  {
    var j, s' := s.journal, FinStep(s, pid, FinResuming(claim, context, left), c);
    if left != [] {
      RefOfOk(j, left[0].rep);
      AddingOk(j, context, RefOf(j, left[0].rep));
    } else if AllSettled(context) {
      ContextDue(j, context, s.nextRun);
      FinaliserJustified(j, s.absent, context, claim);
    }
    QuietOk(s, pid, s'.procs[pid]);
  }

  lemma FinReadOk(s: Sys, pid: nat, stage: Stage, c: Choice)
    requires WorldOk(s) && pid < |s.procs| && StageOk(s, pid, stage)
    requires stage.FinOpening? || stage.FinInventory? || stage.FinReading?
    ensures StepOk(s, FinStep(s, pid, stage, c), pid)
  {
    var j, s' := s.journal, FinStep(s, pid, stage, c);
    if stage.FinReading? && stage.reps != [] {
      RefOfOk(j, stage.reps[0]);
      AddingOk(j, stage.context, RefOf(j, stage.reps[0]));
    }
    QuietOk(s, pid, s'.procs[pid]);
  }

  lemma BeginCleans(j: Journal, reason: Reason, token: nat)
    requires Begin(j, reason, token).1.Some?
    ensures Cleaning(Begin(j, reason, token).0)
  {}

  /** Once terminalization has begun it stays begun. */
  lemma BegunOk(s: Sys, reason: Reason, token: nat, j': Journal)
    requires WorldOk(s) && Begin(s.journal, reason, token).1.Some? && Commit(s.journal, TBegin(reason, token)) == j'
    ensures Cleaning(j') && Grew(s.journal, j') && IdsOk(j', s.nextRun)
  {
    BeginCleans(s.journal, reason, token);
    CommitMoved(s.journal, TBegin(reason, token));
    MovedFlags(s, TBegin(reason, token), j');
  }

  lemma BegunFinaliser(s: Sys, token: nat, context: Context, j': Journal, claim: nat)
    requires WorldOk(s) && ContextOk(s.journal, context) && AllSettled(context)
    requires Begin(s.journal, Aborted, token) == (j', Some(claim))
    ensures Justified(j', s.absent, FinaliserProgram(context, claim))
  {
    BegunOk(s, Aborted, token, j');
    ContextStays(s.journal, j', context);
    ContextDue(j', context, s.nextRun);
    FinaliserJustified(j', s.absent, context, claim);
  }

  lemma FinBeginningOk(s: Sys, pid: nat, context: Context, c: Choice)
    requires WorldOk(s) && pid < |s.procs| && StageOk(s, pid, FinBeginning(context))
    ensures StepOk(s, FinStep(s, pid, FinBeginning(context), c), pid)
  {
    var (j', claim) := Begin(s.journal, Aborted, c.token);
    var stage := if claim.Some? then Doing(FinaliserProgram(context, claim.value), Halt) else Halted;
    if claim.Some? { BegunFinaliser(s, c.token, context, j', claim.value); }
    CommittedOk(s, TBegin(Aborted, c.token), j', claim.Some?, pid, c, stage);
  }

  // ---- The canary's steps ----

  lemma ReadOk(s: Sys, pid: nat, c: Choice)
    requires WorldOk(s) && pid < |s.procs| && StageOk(s, pid, s.procs[pid])
    requires var stage := s.procs[pid];
      stage.Opening? || stage.Inventory? || stage.Loading? || stage.Observing? || stage.Halted?
    ensures StepOk(s, Step(s, pid, c), pid)
  {
    var s' := Step(s, pid, c);
    match s.procs[pid] {
      case Inventory(claim) =>
        if Holds(s.journal, claim) {
          InventoryDue(s.journal);
          SweepJustified(s.journal, s.absent, InventoryOf(s.journal), claim);
        }
      case Loading(rep) => if Has(s.journal, rep) { JudgeOk(s, pid, rep); }
      case _ =>
    }
    QuietOk(s, pid, s'.procs[pid]);
    assert s' == Put(s, pid, s'.procs[pid]);
  }

  lemma CheckpointingOk(s: Sys, pid: nat, c: Choice)
    requires WorldOk(s) && pid < |s.procs| && s.procs[pid].Checkpointing? && StageOk(s, pid, s.procs[pid])
    ensures StepOk(s, Step(s, pid, c), pid)
  {
    var rep, id := s.procs[pid].rep, s.procs[pid].id;
    var (j', done) := Checkpoint(s.journal, rep, id);
    if c.ok {
      CommitMoved(s.journal, TCheckpoint(rep, id));
      WriteOk(s, TCheckpoint(rep, id), j', pid, if done && !c.lost then Observing(rep, id) else MarkingAmbiguous(rep));
    } else {
      QuietOk(s, pid, MarkingAmbiguous(rep));
    }
  }

  lemma RecordingOk(s: Sys, pid: nat, c: Choice)
    requires WorldOk(s) && pid < |s.procs| && s.procs[pid].Recording? && StageOk(s, pid, s.procs[pid])
    ensures StepOk(s, Step(s, pid, c), pid)
  {
    var rep, id, evidence := s.procs[pid].rep, s.procs[pid].id, s.procs[pid].evidence;
    var (j', done) := Terminalize(s.journal, rep, id, evidence);
    var stage := if done then Settling(rep, j'.runs[rep]) else Halted;
    CommittedOk(s, TTerminalize(rep, id, evidence), j', done, pid, c, stage);
  }

  lemma ReconciledOk(j: Journal, rep: Rep, id: nat, cost: nat)
    requires Reconcile(j, rep, id, cost).1
    ensures var j' := Reconcile(j, rep, id, cost).0; RecordOk(j', rep, j'.runs[rep]) && j'.runs[rep].cost.Some?
  {}

  lemma SettlingOk(s: Sys, pid: nat, c: Choice)
    requires WorldOk(s) && pid < |s.procs| && s.procs[pid].Settling? && StageOk(s, pid, s.procs[pid])
    ensures StepOk(s, Step(s, pid, c), pid)
  {
    var rep, run := s.procs[pid].rep, s.procs[pid].run;
    if run.cost.None? && c.cost.Some? && c.cost.value <= MAX_OBSERVED_USAGE {
      var (j', done) := Reconcile(s.journal, rep, run.id.value, c.cost.value);
      var stage := if done then Scrubbing(rep, j'.runs[rep]) else Halted;
      if done { ReconciledOk(s.journal, rep, run.id.value, c.cost.value); }
      CommittedOk(s, TReconcile(rep, run.id.value, c.cost.value), j', done, pid, c, stage);
    } else {
      QuietOk(s, pid, if run.cost.Some? then Scrubbing(rep, run) else Halted);
    }
  }

  lemma ScrubbingOk(s: Sys, pid: nat, c: Choice)
    requires WorldOk(s) && pid < |s.procs| && s.procs[pid].Scrubbing? && StageOk(s, pid, s.procs[pid])
    ensures StepOk(s, Step(s, pid, c), pid)
  {
    var rep, run := s.procs[pid].rep, s.procs[pid].run;
    var storage, s' := NextStorage(run.cleaned), Step(s, pid, c);
    if storage.Some? {
      var ref := CanaryRef(rep, run.id.value, true, {});
      assert Settled(s.journal, rep, run.id.value);
      RunPartJustified(s.journal, s.absent, ref, storage.value, []);
      assert RunPart(ref, storage.value) + [] == WipeRun(rep, run.id.value, storage.value);
    }
    QuietOk(s, pid, s'.procs[pid]);
  }

  lemma BegunClosing(s: Sys, reason: Reason, token: nat)
    requires WorldOk(s) && Begin(s.journal, reason, token).1.Some?
    ensures var (j', claim) := Begin(s.journal, reason, token); Justified(j', s.absent, ClosingProgram(claim.value))
  {
    BegunOk(s, reason, token, Begin(s.journal, reason, token).0);
    ClosingJustified(Begin(s.journal, reason, token).0, s.absent, Begin(s.journal, reason, token).1.value);
  }

  lemma BeginningOk(s: Sys, pid: nat, c: Choice)
    requires WorldOk(s) && pid < |s.procs| && s.procs[pid].Beginning?
    ensures StepOk(s, Step(s, pid, c), pid)
  {
    var reason := s.procs[pid].reason;
    var (j', claim) := Begin(s.journal, reason, c.token);
    var stage := if claim.Some? then Doing(ClosingProgram(claim.value), Halt) else Halted;
    if claim.Some? { BegunClosing(s, reason, c.token); }
    CommittedOk(s, TBegin(reason, c.token), j', claim.Some?, pid, c, stage);
  }

  lemma MarkingOk(s: Sys, pid: nat, rep: Rep, c: Choice)
    requires WorldOk(s) && pid < |s.procs| && s.procs[pid] == MarkingAmbiguous(rep) && StageOk(s, pid, s.procs[pid])
    ensures StepOk(s, Step(s, pid, c), pid)
  {
    var (j', done) := MarkAmbiguous(s.journal, rep);
    CommittedOk(s, TAmbiguous(rep), j', done, pid, c, Halted);
  }

  lemma ClaimingOk(s: Sys, pid: nat, c: Choice)
    requires WorldOk(s) && pid < |s.procs| && s.procs[pid] == Claiming
    ensures StepOk(s, Step(s, pid, c), pid)
  {
    var (j', done) := ClaimExpired(s.journal, c.token);
    CommittedOk(s, TClaimExpired(c.token), j', done, pid, c, Inventory(c.token));
  }

  lemma StepIsOk(s: Sys, pid: nat, c: Choice)
    requires WorldOk(s) && pid < |s.procs| && StageOk(s, pid, s.procs[pid])
    ensures StepOk(s, Step(s, pid, c), pid)
  {
    match s.procs[pid]
    case Opening => ReadOk(s, pid, c);
    case Inventory(_) => ReadOk(s, pid, c);
    case Loading(_) => ReadOk(s, pid, c);
    case Observing(_, _) => ReadOk(s, pid, c);
    case Halted => ReadOk(s, pid, c);
    case Reserving(rep) => ReserveStepOk(s, pid, rep, c);
    case Launching(rep) => LaunchOk(s, pid, rep, c);
    case Checkpointing(_, _) => CheckpointingOk(s, pid, c);
    case MarkingAmbiguous(rep) => MarkingOk(s, pid, rep, c);
    case Recording(_, _, _) => RecordingOk(s, pid, c);
    case Settling(_, _) => SettlingOk(s, pid, c);
    case Scrubbing(_, _) => ScrubbingOk(s, pid, c);
    case Beginning(_) => BeginningOk(s, pid, c);
    case Doing(todo, after) =>
      if todo != [] { DoingOk(s, pid, todo, after, c); } else { QuietOk(s, pid, Halted); }
    case FinResuming(claim, context, left) => FinResumingOk(s, pid, claim, context, left, c);
    case FinBeginning(context) => FinBeginningOk(s, pid, context, c);
    case Claiming => ClaimingOk(s, pid, c);
    case stage => FinReadOk(s, pid, stage, c);
  }

  // ---- Every run ----

  lemma MovedSystem(s: Sys, t: Txn, j': Journal)
    requires SysOk(s) && Grounded(s, t) && Moved(s.journal, t, j')
    ensures SysOk(s.(journal := j'))
  {
    MovedWorld(s, t, j');
    forall pid | 0 <= pid < |s.procs| ensures StageOk(s.(journal := j'), pid, s.procs[pid]) {
      StageStays(s, s.(journal := j'), pid, s.procs[pid]);
    }
  }

  lemma TurnKeeps(s: Sys, pid: nat, c: Choice)
    requires SysOk(s) && pid < |s.procs|
    ensures SysOk(Step(s, pid, c))
  {
    var s' := Step(s, pid, c);
    StepIsOk(s, pid, c);
    forall other | 0 <= other < |s'.procs| ensures StageOk(s', other, s'.procs[other]) {
      if other != pid {
        assert s'.procs[other] == s.procs[other];
        StageStays(s, s', other, s.procs[other]);
      }
    }
  }

  lemma SpawnKeeps(s: Sys, kind: Stage)
    requires SysOk(s) && (kind.Opening? || kind.FinOpening? || kind.Claiming?)
    ensures SysOk(s.(procs := s.procs + [kind]))
  {
    var s' := s.(procs := s.procs + [kind]);
    forall pid | 0 <= pid < |s'.procs| ensures StageOk(s', pid, s'.procs[pid]) {
      if pid < |s.procs| { StageIgnoresProcs(s, s'.procs, pid, s.procs[pid]); }
    }
  }

  lemma CrashKeeps(s: Sys, crashed: nat)
    requires SysOk(s) && crashed < |s.procs|
    ensures SysOk(Put(s, crashed, Halted))
  {
    var s' := Put(s, crashed, Halted);
    forall pid | 0 <= pid < |s'.procs| ensures StageOk(s', pid, s'.procs[pid]) {
      if pid != crashed { StageIgnoresProcs(s, s'.procs, pid, s.procs[pid]); }
    }
  }

  lemma OutsideKeeps(s: Sys, t: Txn)
    requires SysOk(s) && Grounded(s, t)
    ensures SysOk(s.(journal := Commit(s.journal, t)))
  {
    CommitMoved(s.journal, t);
    MovedSystem(s, t, Commit(s.journal, t));
  }

  lemma EventKeeps(s: Sys, e: Event)
    requires SysOk(s) && Enabled(s, e) && !e.Turn?
    ensures SysOk(Next(s, e))
  {
    match e
    case Spawn(kind) => SpawnKeeps(s, kind);
    case Crash(pid) => CrashKeeps(s, pid);
    case Outside(txn) => OutsideKeeps(s, txn);
  }

  lemma NextKeeps(s: Sys, e: Event)
    requires SysOk(s) && Enabled(s, e)
    ensures SysOk(Next(s, e))
  {
    if e.Turn? { TurnKeeps(s, e.pid, e.choice); } else { EventKeeps(s, e); }
  }

  lemma {:induction false} RunKeeps(s: Sys, events: seq<Event>, t: Sys)
    requires SysOk(s) && Reaches(s, events, t)
    ensures SysOk(t)
    decreases events
  {
    if events != [] {
      NextKeeps(s, events[0]);
      RunKeeps(Next(s, events[0]), events[1..], t);
    }
  }

  lemma ReachedOk(now: nat, events: seq<Event>, s: Sys)
    requires Reaches(Start(now), events, s)
    ensures SysOk(s)
  {
    RunKeeps(Start(now), events, s);
  }

  lemma Pigeonhole(starts: seq<(Rep, nat)>)
    ensures |starts| > 2 ==> exists i, k :: 0 <= i < k < |starts| && starts[i].0 == starts[k].0
  {
    if |starts| > 2 {
      if starts[0].0 != starts[1].0 && starts[0].0 != starts[2].0 { assert starts[1].0 == starts[2].0; }
    }
  }

  lemma EveryStorage(storage: Storage)
    ensures storage in ALL
  {
    match storage
    case Kvs =>
    case Dataset =>
    case Queue =>
  }

  /** Over any number of crashes and re-invocations each repetition is started afresh at most once,
      by the invocation whose reservation created it, so at most two runs are ever started and the
      charge they authorise stays within 0.10. */
  lemma StartsOnce(now: nat, events: seq<Event>, s: Sys)
    requires Reaches(Start(now), events, s)
    ensures forall i, k :: 0 <= i < k < |s.starts| ==> s.starts[i].0 != s.starts[k].0
    ensures forall i :: 0 <= i < |s.starts| ==>
      Has(s.journal, s.starts[i].0) && s.starts[i].0 in s.creator && s.creator[s.starts[i].0] == s.starts[i].1
    ensures |s.starts| <= 2 && |s.starts| * MAX_RUN_CHARGE <= 100_000
  {
    ReachedOk(now, events, s);
    Pigeonhole(s.starts);
  }

  /** Only the creator of a repetition that was never started can be about to start it; every other
      invocation that drives a provider run drives the one the journal names. */
  lemma OnlyResumes(now: nat, events: seq<Event>, s: Sys, pid: nat)
    requires Reaches(Start(now), events, s) && pid < |s.procs|
    ensures var stage := s.procs[pid];
      && (stage.Launching? ==>
            stage.rep in s.creator && s.creator[stage.rep] == pid && NoStart(s.starts, stage.rep))
      && (stage.Observing? || stage.Recording? ==>
            Has(s.journal, stage.rep) && s.journal.runs[stage.rep].id == Some(stage.id))
  {
    ReachedOk(now, events, s);
    assert StageOk(s, pid, s.procs[pid]);
  }

  /** Repetition 2 exists, and so can be started, only after repetition 1 succeeded, passed its gate
      with settled cost within the ceiling, and had all its storages removed; and it was reserved within
      the hour after repetition 1 ended. */
  lemma SecondNeedsFirst(now: nat, events: seq<Event>, s: Sys)
    requires Reaches(Start(now), events, s) && Has(s.journal, Second)
    ensures Has(s.journal, First)
    ensures var r := s.journal.runs[First];
      && r.state.Succeeded? && r.gate == Some(true) && r.id.Some? && r.evidence.Some? && r.cost.Some?
      && GatePassed(r.evidence.value) && r.cost.value <= MAX_RUN_CHARGE
      && s.journal.runs[Second].reservedAt < r.terminalizedAt + 3_600_000
      && forall storage :: (r.id.value, storage) in s.absent
  {
    ReachedOk(now, events, s);
    var r := s.journal.runs[First];
    assert RunOk(r);
    forall storage: Storage ensures (r.id.value, storage) in s.absent {
      EveryStorage(storage);
    }
  }

  /** A repetition's cleaned flag implies that storage is gone, a source flag that it is gone for all
      eight source runs; no canary storage is deleted before that run's cost is settled, no source
      storage before terminalization began. */
  lemma CleanupIsOrdered(now: nat, events: seq<Event>, s: Sys)
    requires Reaches(Start(now), events, s)
    ensures forall rep, storage :: Has(s.journal, rep) && storage in s.journal.runs[rep].cleaned ==>
      s.journal.runs[rep].id.Some? && (s.journal.runs[rep].id.value, storage) in s.absent
    ensures s.journal.Journal? ==> forall storage :: storage in s.journal.sourceCleaned ==> RowAbsent(s.absent, storage)
    ensures forall id, storage :: (id, storage) in s.deleted ==>
      if id < SOURCES then Cleaning(s.journal) else exists rep :: Settled(s.journal, rep, id)
  {
    ReachedOk(now, events, s);
  }

  /** The reason under which an experiment is cleaned up is true of it: completed only if both repetitions
      passed the script's gate with settled costs of at most 0.10 together, failed only if a gate failed,
      without a run only if a repetition had none, aborted or expired only after a passed repetition 1
      and no other, expired only once an hour has passed since that one ended. */
  lemma ReasonIsTrue(now: nat, events: seq<Event>, s: Sys)
    requires Reaches(Start(now), events, s) && Cleaning(s.journal)
    ensures var runs := s.journal.runs;
      match s.journal.phase.reason
      case Completed =>
        && First in runs && Second in runs && runs[First].cost.Some? && runs[Second].cost.Some?
        && runs[First].cost.value + runs[Second].cost.value <= 100_000
        && forall rep :: rep in runs ==> runs[rep].evidence.Some? && GatePassed(runs[rep].evidence.value)
      case StrictFailure => exists rep :: rep in runs && runs[rep].gate == Some(false)
      case VerifiedNoRun => exists rep :: rep in runs && runs[rep].state.NoRun?
      case Expired => Second !in runs && Passed(s.journal) && runs[First].terminalizedAt + 3_600_000 <= s.journal.now
      case Aborted => Second !in runs && Passed(s.journal)
  {
    ReachedOk(now, events, s);
    var j := s.journal;
    if j.phase.reason.Completed? {
      assert RunOk(j.runs[First]) && RunOk(j.runs[Second]);
      forall rep | rep in j.runs ensures j.runs[rep].evidence.Some? && GatePassed(j.runs[rep].evidence.value) {
        assert rep == First || rep == Second;
      }
    }
  }

  lemma NextGrows(s: Sys, e: Event)
    requires SysOk(s) && Enabled(s, e)
    ensures Grew(s.journal, Next(s, e).journal)
  {
    if e.Turn? {
      StepIsOk(s, e.pid, e.choice);
      assert Later(s, Step(s, e.pid, e.choice), e.pid + 1);
    } else if e.Outside? {
      CommitMoved(s.journal, e.txn);
    }
  }

  /** From any reachable state on the journal only gains facts: run ids, costs, evidence, flags and gates
      stay, cleanup keeps its reason, and while a cleanup lease runs the cleanup stays with its claim. */
  lemma {:induction false} FactsStay(s: Sys, events: seq<Event>, t: Sys)
    requires SysOk(s) && Reaches(s, events, t)
    ensures Grew(s.journal, t.journal)
    decreases events
  {
    if events != [] {
      var n := Next(s, events[0]);
      NextKeeps(s, events[0]);
      NextGrows(s, events[0]);
      FactsStay(n, events[1..], t);
      GrewTransitive(s.journal, n.journal, t.journal);
    }
  }

  lemma FinishedRun(s: Sys, rep: Rep)
    requires WorldOk(s) && Has(s.journal, rep) && s.journal.phase.Finished?
    ensures var r := s.journal.runs[rep];
      !Open(r) && r.cost.Some? && (r.id.Some? ==> forall storage :: (r.id.value, storage) in s.absent)
  {
    var r := s.journal.runs[rep];
    assert RunOk(r) && Ready(r);
    if r.id.Some? {
      forall storage ensures (r.id.value, storage) in s.absent {
        EveryStorage(storage);
      }
    }
  }

  /** A terminal experiment has nothing left: every source storage is gone, and every repetition is
      closed with settled cost and, if it had a provider run, without storages. */
  lemma TerminalIsClean(now: nat, events: seq<Event>, s: Sys, rep: Rep, storage: Storage)
    requires Reaches(Start(now), events, s) && s.journal.Journal? && s.journal.phase.Finished?
    ensures RowAbsent(s.absent, storage)
    ensures Has(s.journal, rep) ==>
      var r := s.journal.runs[rep];
      !Open(r) && r.cost.Some? && (r.id.Some? ==> (r.id.value, storage) in s.absent)
  {
    ReachedOk(now, events, s);
    EveryStorage(storage);
    if Has(s.journal, rep) { FinishedRun(s, rep); }
  }
}
