/** An undisturbed invocation of the canary, its finaliser or the recovery sweep, and the cleanup programs
    as it performs them: under a cleanup claim each works to its end and leaves the experiment terminal. */
module CanaryPrograms {
  import opened Basics
  import opened CanaryJournal
  import opened CanaryProcesses
  import opened CanaryRuns

  /** What the provider observes of each repetition, what it costs, and the fresh cleanup token. */
  datatype Answers = Answers(evidence: Rep -> Evidence, cost: Rep -> nat, token: nat)

  predicate Sane(a: Answers) {
    forall rep :: ValidEvidence(a.evidence(rep)) && a.cost(rep) <= MAX_OBSERVED_USAGE
  }

  function Undisturbed(stage: Stage, a: Answers): Choice {
    Choice(true, false, a.evidence(if stage.Observing? then stage.rep else First),
           if stage.Settling? then Some(a.cost(stage.rep)) else None, a.token)
  }

  /** One invocation runs alone, every call works, and nothing is lost. */
  function Onward(pid: nat, a: Answers): Sys -> Option<Sys> {
    (s: Sys) =>
      if pid < |s.procs| && !s.procs[pid].Halted? then Some(Step(s, pid, Undisturbed(s.procs[pid], a))) else None
  }

  ghost predicate Comes(pid: nat, a: Answers, s: Sys, t: Sys) { Way(Onward(pid, a), s, t) }

  lemma Then(pid: nat, a: Answers, s: Sys, t: Sys, u: Sys)
    requires Comes(pid, a, s, t) && pid < |t.procs| && !t.procs[pid].Halted?
    requires Step(t, pid, Undisturbed(t.procs[pid], a)) == u
    ensures Comes(pid, a, s, u)
  {
    OneStep(Onward(pid, a), t, u);
    WayOn(Onward(pid, a), s, t, u);
  }

  lemma OneTurn(pid: nat, a: Answers, s: Sys, t: Sys) returns (e: Event)
    requires Onward(pid, a)(s) == Some(t)
    ensures e.Turn? && e.pid == pid && Enabled(s, e) && Next(s, e) == t
  {
    e := Turn(pid, Undisturbed(s.procs[pid], a));
  }

  lemma Prepend(s: Sys, e: Event, t: Sys, rest: seq<Event>, u: Sys)
    requires Enabled(s, e) && Next(s, e) == t && Reaches(t, rest, u)
    ensures Reaches(s, [e] + rest, u)
  {
    assert ([e] + rest)[1..] == rest;
  }

  /** It is a run of the system. */
  lemma {:induction false} ComesInTurns(pid: nat, a: Answers, s: Sys, t: Sys, trace: seq<Sys>)
    returns (events: seq<Event>)
    requires Trace(Onward(pid, a), s, t, trace)
    ensures Reaches(s, events, t) && forall i :: 0 <= i < |events| ==> events[i].Turn? && events[i].pid == pid
    decreases |trace|
  {
    events := [];
    if |trace| > 1 {
      TraceRest(Onward(pid, a), s, t, trace);
      var first := OneTurn(pid, a, s, trace[1]);
      var rest := ComesInTurns(pid, a, trace[1], t, trace[1..]);
      Prepend(s, first, trace[1], rest, t);
      events := [first] + rest;
    }
  }

  lemma ComesSoundly(pid: nat, a: Answers, s: Sys, t: Sys)
    requires SysOk(s) && Comes(pid, a, s, t)
    ensures SysOk(t)
  {
    var trace :| Trace(Onward(pid, a), s, t, trace);
    var events := ComesInTurns(pid, a, s, t, trace);
    RunKeeps(s, events, t);
  }

  // ---- Cleanup programs ----

  /** Performed without disturbance, every instruction of the program succeeds. */
  ghost predicate Works(j: Journal, absent: set<(nat, Storage)>, todo: seq<Instr>)
    decreases todo
  {
    todo == []
    || match todo[0]
       case Delete(id, storage) => Works(j, absent + {(id, storage)}, todo[1..])
       case Verify(id, storage) => (id, storage) in absent && Works(j, absent, todo[1..])
       case MarkRun(rep, id, storage) =>
         MarkRunStorage(j, rep, id, storage).1 && Works(MarkRunStorage(j, rep, id, storage).0, absent, todo[1..])
       case MarkSource(claim, storage) =>
         MarkSourceStorage(j, claim, storage).1 && Works(MarkSourceStorage(j, claim, storage).0, absent, todo[1..])
       case Finish(claim) => Complete(j, claim).1 && Works(Complete(j, claim).0, absent, todo[1..])
  }

  /** The journal it leaves. */
  function Left(j: Journal, todo: seq<Instr>): Journal
    decreases todo
  {
    if todo == [] then j
    else
      match todo[0]
      case MarkRun(rep, id, storage) => Left(MarkRunStorage(j, rep, id, storage).0, todo[1..])
      case MarkSource(claim, storage) => Left(MarkSourceStorage(j, claim, storage).0, todo[1..])
      case Finish(claim) => Left(Complete(j, claim).0, todo[1..])
      case _ => Left(j, todo[1..])
  }

  /** One instruction that works. */
  lemma Instructs(pid: nat, a: Answers, s: Sys, todo: seq<Instr>) returns (t: Sys)
    requires pid < |s.procs| && todo != [] && s.procs[pid] == Doing(todo, Halt) && Works(s.journal, s.absent, todo)
    ensures Step(s, pid, Undisturbed(s.procs[pid], a)) == t
    ensures t.procs == s.procs[pid := Doing(todo[1..], Halt)] && Works(t.journal, t.absent, todo[1..])
    ensures Left(t.journal, todo[1..]) == Left(s.journal, todo) && t.starts == s.starts && t.nextRun == s.nextRun
  {
    t := Step(s, pid, Undisturbed(s.procs[pid], a));
  }

  lemma {:induction false} Performs(pid: nat, a: Answers, s: Sys, todo: seq<Instr>) returns (t: Sys)
    requires pid < |s.procs| && s.procs[pid] == Doing(todo, Halt) && Works(s.journal, s.absent, todo)
    ensures Comes(pid, a, s, t) && t.procs == s.procs[pid := Halted] && t.journal == Left(s.journal, todo)
    ensures t.starts == s.starts && t.nextRun == s.nextRun
    decreases todo
  {
    NoStep(Onward(pid, a), s);
    if todo == [] {
      t := Put(s, pid, Halted);
      Then(pid, a, s, s, t);
    } else {
      var u := Instructs(pid, a, s, todo);
      Then(pid, a, s, s, u);
      t := Performs(pid, a, u, todo[1..]);
      WayOn(Onward(pid, a), s, u, t);
    }
  }

  // ---- The cleanup programs work under their claim ----

  ghost predicate UnderClaim(j: Journal, claim: nat) { JournalOk(j) && Holds(j, claim) }

  function WithSources(j: Journal, more: set<Storage>): Journal
    requires j.Journal?
  {
    j.(sourceCleaned := j.sourceCleaned + more)
  }

  lemma AttemptWorks(j: Journal, absent: set<(nat, Storage)>, id: nat, storage: Storage, rest: seq<Instr>)
    requires Works(j, absent + {(id, storage)}, rest)
    ensures Works(j, absent, [Delete(id, storage), Verify(id, storage)] + rest)
    ensures Left(j, [Delete(id, storage), Verify(id, storage)] + rest) == Left(j, rest)
  {
    var verified := [Verify(id, storage)] + rest;
    assert verified[1..] == rest;
    assert [Delete(id, storage), Verify(id, storage)] + rest == [Delete(id, storage)] + verified;
    assert ([Delete(id, storage)] + verified)[1..] == verified;
  }

  lemma {:induction false} WorksStays(j: Journal, absent: set<(nat, Storage)>, absent': set<(nat, Storage)>,
                                      todo: seq<Instr>)
    requires Works(j, absent, todo) && absent <= absent'
    ensures Works(j, absent', todo)
    decreases todo
  {
    if todo != [] {
      match todo[0]
      case Delete(id, storage) => WorksStays(j, absent + {(id, storage)}, absent' + {(id, storage)}, todo[1..]);
      case Verify(_, _) => WorksStays(j, absent, absent', todo[1..]);
      case MarkRun(rep, id, storage) => WorksStays(MarkRunStorage(j, rep, id, storage).0, absent, absent', todo[1..]);
      case MarkSource(claim, storage) =>
        WorksStays(MarkSourceStorage(j, claim, storage).0, absent, absent', todo[1..]);
      case Finish(claim) => WorksStays(Complete(j, claim).0, absent, absent', todo[1..]);
    }
  }

  lemma {:induction false} WipeSourcesWork(j: Journal, absent: set<(nat, Storage)>, n: nat, storage: Storage,
                                           rest: seq<Instr>)
    requires Works(j, absent, rest)
    ensures Works(j, absent, WipeSources(n, storage) + rest)
    ensures Left(j, WipeSources(n, storage) + rest) == Left(j, rest)
    decreases SOURCES - n
  {
    if n >= SOURCES {
      assert WipeSources(n, storage) + rest == rest;
    } else {
      var tail := WipeSources(n + 1, storage) + rest;
      WipeSourcesWork(j, absent, n + 1, storage, rest);
      WorksStays(j, absent, absent + {(n, storage)}, tail);
      AttemptWorks(j, absent, n, storage, tail);
      assert WipeSources(n, storage) + rest == [Delete(n, storage), Verify(n, storage)] + tail;
    }
  }

  lemma SourcePartWorks(j: Journal, absent: set<(nat, Storage)>, storage: Storage, skip: set<Storage>, claim: nat,
                        rest: seq<Instr>)
    requires Holds(j, claim) && Works(WithSources(j, {storage} - skip), absent, rest)
    ensures Works(j, absent, SourcePart(storage, skip, claim) + rest)
    ensures Left(j, SourcePart(storage, skip, claim) + rest) == Left(WithSources(j, {storage} - skip), rest)
  {
    if storage in skip {
      assert {storage} - skip == {} && j.sourceCleaned + {} == j.sourceCleaned;
      assert WithSources(j, {}) == j && SourcePart(storage, skip, claim) + rest == rest;
    } else {
      assert {storage} - skip == {storage};
      var marked := [MarkSource(claim, storage)] + rest;
      assert marked[1..] == rest;
      WipeSourcesWork(j, absent, 0, storage, marked);
      Regroup(WipeSources(0, storage), [MarkSource(claim, storage)], rest);
    }
  }

  function SetOf(storages: seq<Storage>): set<Storage> { set i | 0 <= i < |storages| :: storages[i] }

  lemma {:induction false} SourceProgramWorks(j: Journal, absent: set<(nat, Storage)>, storages: seq<Storage>,
                                              skip: set<Storage>, claim: nat, rest: seq<Instr>)
    requires Holds(j, claim) && Works(WithSources(j, SetOf(storages) - skip), absent, rest)
    ensures Works(j, absent, SourceProgram(storages, skip, claim) + rest)
    ensures Left(j, SourceProgram(storages, skip, claim) + rest) == Left(WithSources(j, SetOf(storages) - skip), rest)
    decreases storages
  {
    if storages == [] {
      assert SetOf(storages) - skip == {} && j.sourceCleaned + {} == j.sourceCleaned;
      assert WithSources(j, {}) == j && SourceProgram(storages, skip, claim) + rest == rest;
    } else {
      var first, more := {storages[0]} - skip, SetOf(storages[1..]) - skip;
      SetOfRest(storages);
      assert j.sourceCleaned + (SetOf(storages) - skip) == j.sourceCleaned + first + more;
      var tail := SourceProgram(storages[1..], skip, claim);
      SourceProgramWorks(WithSources(j, first), absent, storages[1..], skip, claim, rest);
      SourcePartWorks(j, absent, storages[0], skip, claim, tail + rest);
      Regroup(SourcePart(storages[0], skip, claim), tail, rest);
    }
  }

  lemma SetOfRest(storages: seq<Storage>)
    requires storages != []
    ensures SetOf(storages) == {storages[0]} + SetOf(storages[1..])
  {
    forall x | x in SetOf(storages[1..]) ensures x in SetOf(storages) {
      var i :| 0 <= i < |storages[1..]| && storages[1..][i] == x;
      assert storages[i + 1] == x;
    }
    forall x | x in SetOf(storages) ensures x in {storages[0]} + SetOf(storages[1..]) {
      var i :| 0 <= i < |storages| && storages[i] == x;
      if i > 0 { assert storages[1..][i - 1] == x; }
    }
  }

  /** The record of a run that cleanup finds. */
  predicate Found(j: Journal, ref: CanaryRef) {
    Has(j, ref.rep) && j.runs[ref.rep].id == Some(ref.id)
  }

  ghost predicate AllFound(j: Journal, refs: seq<CanaryRef>) { forall i :: 0 <= i < |refs| ==> Found(j, refs[i]) }

  /** During cleanup every repetition is clean already, so marking it again changes nothing. */
  lemma MarkAgain(j: Journal, ref: CanaryRef, storage: Storage)
    requires JournalOk(j) && Cleaning(j) && Found(j, ref)
    ensures MarkRunStorage(j, ref.rep, ref.id, storage) == (j, true)
  {
    var r := j.runs[ref.rep];
    assert RunOk(r) && Ready(r);
    EveryStorage(storage);
    assert ALL + {storage} == ALL;
    assert j.runs[ref.rep := r] == j.runs;
  }

  lemma RunPartWorks(j: Journal, absent: set<(nat, Storage)>, ref: CanaryRef, storage: Storage, rest: seq<Instr>)
    requires JournalOk(j) && Cleaning(j) && Found(j, ref) && Works(j, absent, rest)
    ensures Works(j, absent, RunPart(ref, storage) + rest) && Left(j, RunPart(ref, storage) + rest) == Left(j, rest)
  {
    if storage in ref.cleaned {
      assert RunPart(ref, storage) + rest == rest;
    } else {
      var marked := [MarkRun(ref.rep, ref.id, storage)] + rest;
      assert marked[1..] == rest;
      MarkAgain(j, ref, storage);
      WorksStays(j, absent, absent + {(ref.id, storage)}, marked);
      AttemptWorks(j, absent, ref.id, storage, marked);
      assert RunPart(ref, storage) + rest == [Delete(ref.id, storage), Verify(ref.id, storage)] + marked;
    }
  }

  lemma {:induction false} RunProgramWorks(j: Journal, absent: set<(nat, Storage)>, ref: CanaryRef,
                                           storages: seq<Storage>, rest: seq<Instr>)
    requires JournalOk(j) && Cleaning(j) && Found(j, ref) && Works(j, absent, rest)
    ensures Works(j, absent, RunProgram(ref, storages) + rest)
    ensures Left(j, RunProgram(ref, storages) + rest) == Left(j, rest)
    decreases storages
  {
    if storages == [] {
      assert RunProgram(ref, storages) + rest == rest;
    } else {
      var tail := RunProgram(ref, storages[1..]);
      RunProgramWorks(j, absent, ref, storages[1..], rest);
      RunPartWorks(j, absent, ref, storages[0], tail + rest);
      Regroup(RunPart(ref, storages[0]), tail, rest);
    }
  }

  lemma {:induction false} RunsProgramWork(j: Journal, absent: set<(nat, Storage)>, refs: seq<CanaryRef>,
                                           rest: seq<Instr>)
    requires JournalOk(j) && Cleaning(j) && AllFound(j, refs) && Works(j, absent, rest)
    ensures Works(j, absent, RunsProgram(refs) + rest) && Left(j, RunsProgram(refs) + rest) == Left(j, rest)
    decreases refs
  {
    if refs == [] {
      assert RunsProgram(refs) + rest == rest;
    } else {
      var tail := RunsProgram(refs[1..]);
      RunsProgramWork(j, absent, refs[1..], rest);
      RunProgramWorks(j, absent, refs[0], STORAGES, tail + rest);
      Regroup(RunProgram(refs[0], STORAGES), tail, rest);
    }
  }

  /** Once all source storages are marked, the experiment can be made terminal. */
  lemma FinishWorks(j: Journal, absent: set<(nat, Storage)>, claim: nat)
    requires UnderClaim(j, claim) && j.sourceCleaned == ALL
    ensures Works(j, absent, [Finish(claim)])
    ensures Left(j, [Finish(claim)]) == j.(phase := Finished(j.phase.reason, claim))
  {
    assert [Finish(claim)][1..] == [];
    forall rep | rep in j.runs ensures !Open(j.runs[rep]) && (j.runs[rep].id.Some? ==> Clean(j.runs[rep])) {
      assert RunOk(j.runs[rep]) && Ready(j.runs[rep]);
    }
  }

  lemma AllMarked(j: Journal, claim: nat, skip: set<Storage>)
    requires UnderClaim(j, claim) && skip <= j.sourceCleaned
    ensures WithSources(j, SetOf(STORAGES) - skip) == j.(sourceCleaned := ALL)
    ensures UnderClaim(j.(sourceCleaned := ALL), claim)
  {
    assert STORAGES[0] == Kvs && STORAGES[1] == Dataset && STORAGES[2] == Queue;
    forall storage ensures storage in SetOf(STORAGES) && storage in ALL { EveryStorage(storage); }
    assert j.sourceCleaned + (SetOf(STORAGES) - skip) == ALL;
    PhaseOk(j, j.phase, ALL);
  }

  function TerminalOf(j: Journal, claim: nat): Journal
    requires Holds(j, claim)
  {
    j.(sourceCleaned := ALL, phase := Finished(j.phase.reason, claim))
  }

  lemma ClosingWorks(j: Journal, absent: set<(nat, Storage)>, claim: nat)
    requires UnderClaim(j, claim)
    ensures Works(j, absent, ClosingProgram(claim)) && Left(j, ClosingProgram(claim)) == TerminalOf(j, claim)
  {
    AllMarked(j, claim, {});
    FinishWorks(j.(sourceCleaned := ALL), absent, claim);
    SourceProgramWorks(j, absent, STORAGES, {}, claim, [Finish(claim)]);
  }

  lemma SweepWorks(j: Journal, absent: set<(nat, Storage)>, refs: seq<CanaryRef>, claim: nat)
    requires UnderClaim(j, claim) && AllFound(j, refs)
    ensures Works(j, absent, SweepProgram(refs, claim)) && Left(j, SweepProgram(refs, claim)) == TerminalOf(j, claim)
  {
    var j' := j.(sourceCleaned := ALL);
    AllMarked(j, claim, {});
    FinishWorks(j', absent, claim);
    RunsProgramWork(j', absent, refs, [Finish(claim)]);
    SourceProgramWorks(j, absent, STORAGES, {}, claim, RunsProgram(refs) + [Finish(claim)]);
    assert SweepProgram(refs, claim) == SourceProgram(STORAGES, {}, claim) + (RunsProgram(refs) + [Finish(claim)]);
  }

  lemma FinaliserWorks(j: Journal, absent: set<(nat, Storage)>, c: Context, claim: nat)
    requires UnderClaim(j, claim) && AllFound(j, c.canaries) && c.sourceCleaned <= j.sourceCleaned
    ensures Works(j, absent, FinaliserProgram(c, claim)) && Left(j, FinaliserProgram(c, claim)) == TerminalOf(j, claim)
  {
    AllMarked(j, claim, c.sourceCleaned);
    FinishWorks(j.(sourceCleaned := ALL), absent, claim);
    SourceProgramWorks(j, absent, STORAGES, c.sourceCleaned, claim, [Finish(claim)]);
    var rest := SourceProgram(STORAGES, c.sourceCleaned, claim) + [Finish(claim)];
    RunsProgramWork(j, absent, c.canaries, rest);
    assert FinaliserProgram(c, claim) == RunsProgram(c.canaries) + rest;
  }

  lemma BeginsUnderClaim(j: Journal, reason: Reason, token: nat)
    requires JournalOk(j) && j.Journal? && Begin(j, reason, token).1.Some? && !Cleaning(j)
    ensures UnderClaim(Begin(j, reason, token).0, token) && Begin(j, reason, token).1 == Some(token)
    ensures TerminalOf(Begin(j, reason, token).0, token) == j.(sourceCleaned := ALL, phase := Finished(reason, token))
  {
    CommitOk(j, TBegin(reason, token));
  }
}
