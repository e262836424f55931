/** Where undisturbed invocations of the canary script, its finaliser and the recovery sweep end: the
    experiment terminal, under the reason its evidence calls for. */
module CanaryCompletion {
  import opened Basics
  import opened CanaryJournal
  import opened CanaryPrograms
  import opened CanaryProcesses
  import opened CanaryRuns

  // ---- One repetition ----

  /** The record with its storages gone and its gate decided. */
  function Scrubbed(r: Run): Run { r.(cleaned := ALL, gate := Some(DurableGate(r))) }

  /** The phase after that: a passed first repetition makes the experiment wait for the second. */
  function PhaseAfter(j: Journal, rep: Rep, r: Run): Phase
    requires j.Journal?
  {
    if r.cleaned != ALL && rep.First? && DurableGate(r) && j.phase.Active? then Awaiting(r.terminalizedAt + HOUR)
    else j.phase
  }

  /** A storage that is left is deleted and verified. */
  lemma Removes(pid: nat, a: Answers, s: Sys, rep: Rep, run: Run, id: nat, storage: Storage) returns (t: Sys)
    requires pid < |s.procs| && s.procs[pid] == Scrubbing(rep, run) && NextStorage(run.cleaned) == Some(storage)
    requires run.id == Some(id)
    ensures Comes(pid, a, s, t) && t.procs == s.procs[pid := Doing([MarkRun(rep, id, storage)], Recheck)]
    ensures t.journal == s.journal
    ensures t.starts == s.starts && t.nextRun == s.nextRun && t.creator == s.creator
  {
    var todo := WipeRun(rep, id, storage);
    var doing := Put(s, pid, Doing(todo, Recheck));
    var deleted := Put(s.(deleted := s.deleted + {(id, storage)}, absent := s.absent + {(id, storage)}), pid,
                       Doing(todo[1..], Recheck));
    t := Put(deleted, pid, Doing(todo[1..][1..], Recheck));
    assert todo[1..][1..] == [MarkRun(rep, id, storage)];
    NoStep(Onward(pid, a), s);
    Then(pid, a, s, s, doing);
    Then(pid, a, s, doing, deleted);
    Then(pid, a, s, deleted, t);
  }

  /** It is wiped and marked. */
  lemma WipesOne(pid: nat, a: Answers, s: Sys, rep: Rep, run: Run, id: nat, storage: Storage) returns (t: Sys)
    requires pid < |s.procs| && s.procs[pid] == Scrubbing(rep, run) && NextStorage(run.cleaned) == Some(storage)
    requires Has(s.journal, rep) && s.journal.runs[rep] == run && run.id == Some(id)
    requires Ended(run) && run.cost.Some?
    ensures Comes(pid, a, s, t) && t.procs == s.procs[pid := Scrubbing(rep, Marked(run, storage))]
    ensures t.journal == MarkRunStorage(s.journal, rep, id, storage).0
    ensures t.starts == s.starts && t.nextRun == s.nextRun && t.creator == s.creator
  {
    var todo, marked := [MarkRun(rep, id, storage)], Marked(run, storage);
    var u := Removes(pid, a, s, rep, run, id, storage);
    assert todo[1..] == [];
    t := Put(u.(journal := MarkRunStorage(s.journal, rep, id, storage).0), pid, Scrubbing(rep, marked));
    Then(pid, a, s, u, t);
  }

  lemma NextOrNone(cleaned: set<Storage>)
    ensures NextStorage(cleaned).Some? ==> NextStorage(cleaned).value !in cleaned
    ensures NextStorage(cleaned).None? <==> cleaned == ALL
  {
    forall storage ensures storage in ALL { EveryStorage(storage); }
  }

  /** The journal with the repetition scrubbed. */
  function ScrubbedIn(j: Journal, rep: Rep, r: Run): Journal
    requires j.Journal?
  {
    j.(runs := j.runs[rep := Scrubbed(r)], phase := PhaseAfter(j, rep, r))
  }

  lemma MarksOne(j: Journal, rep: Rep, r: Run, id: nat, storage: Storage)
    requires Has(j, rep) && j.runs[rep] == r && r.id == Some(id) && Ended(r) && r.cost.Some?
    requires RunOk(r) && storage !in r.cleaned
    ensures var j' := MarkRunStorage(j, rep, id, storage).0; var r' := Marked(r, storage);
      && Has(j', rep) && j'.runs[rep] == r' && RunOk(r') && r'.id == r.id && Ended(r') && r'.cost == r.cost
      && r.cleaned < r'.cleaned <= ALL && ScrubbedIn(j', rep, r') == ScrubbedIn(j, rep, r)
  {
    var j', r' := MarkRunStorage(j, rep, id, storage).0, Marked(r, storage);
    forall any: Storage ensures any in ALL { EveryStorage(any); }
    MarkedOk(r, storage);
    assert r.cleaned != ALL && DurableGate(r') == DurableGate(r);
    assert Scrubbed(r') == Scrubbed(r);
    assert j'.runs[rep := Scrubbed(r')] == j.runs[rep := Scrubbed(r)];
  }

  /** All its storages are wiped, one after the other. */
  lemma {:induction false} Scrubs(pid: nat, a: Answers, s: Sys, rep: Rep, run: Run, id: nat) returns (t: Sys)
    requires pid < |s.procs| && s.procs[pid] == Scrubbing(rep, run) && RunOk(run)
    requires Has(s.journal, rep) && s.journal.runs[rep] == run && run.id == Some(id) && Ended(run) && run.cost.Some?
    ensures Comes(pid, a, s, t) && t.procs == s.procs[pid := Scrubbing(rep, Scrubbed(run))]
    ensures t.journal == ScrubbedIn(s.journal, rep, run)
    ensures t.starts == s.starts && t.nextRun == s.nextRun && t.creator == s.creator
    decreases ALL - run.cleaned
  {
    NextOrNone(run.cleaned);
    NoStep(Onward(pid, a), s);
    if run.cleaned == ALL {
      assert Scrubbed(run) == run && s.journal.runs[rep := run] == s.journal.runs;
      t := s;
    } else {
      var storage := NextStorage(run.cleaned).value;
      var u := WipesOne(pid, a, s, rep, run, id, storage);
      MarksOne(s.journal, rep, run, id, storage);
      assert ALL - Marked(run, storage).cleaned < ALL - run.cleaned by { EveryStorage(storage); }
      t := Scrubs(pid, a, u, rep, Marked(run, storage), id);
      WayOn(Onward(pid, a), s, u, t);
    }
  }

  /** The final record of a repetition: what was recorded before, and otherwise what was answered. */
  predicate Answered(before: Journal, rep: Rep, a: Answers, r: Run) {
    && Ended(r) && r.id.Some? && r.cleaned == ALL && r.gate == Some(DurableGate(r))
    && r.evidence == (if Has(before, rep) && before.runs[rep].evidence.Some? then before.runs[rep].evidence
                      else Some(a.evidence(rep)))
    && r.cost == (if Has(before, rep) && before.runs[rep].cost.Some? then before.runs[rep].cost else Some(a.cost(rep)))
    && (Has(before, rep) && before.runs[rep].id.Some? ==> r.id == before.runs[rep].id)
  }

  /** What bringing one repetition to its end may change. */
  ghost predicate OnlyOne(s: Sys, t: Sys, pid: nat, rep: Rep, stage: Stage) {
    && pid < |s.procs| && t.procs == s.procs[pid := stage] && s.nextRun <= t.nextRun
    && t.journal.now == s.journal.now && Has(t.journal, rep)
    && (forall other :: other != rep ==> (Has(t.journal, other) <==> Has(s.journal, other)))
    && (forall other :: other != rep && Has(s.journal, other) ==> t.journal.runs[other] == s.journal.runs[other])
  }

  /** From a recorded verdict on: the cost is settled unless it is known, and the storages go. */
  lemma Settles(pid: nat, a: Answers, s: Sys, rep: Rep, run: Run, id: nat) returns (t: Sys, r: Run)
    requires pid < |s.procs| && s.procs[pid] == Settling(rep, run) && Sane(a) && RunOk(run)
    requires Has(s.journal, rep) && s.journal.runs[rep] == run && Ended(run) && run.id == Some(id)
    ensures Comes(pid, a, s, t) && t.procs == s.procs[pid := Scrubbing(rep, Scrubbed(r))]
    ensures r == (if run.cost.Some? then run else run.(cost := Some(a.cost(rep))))
    ensures t.journal == ScrubbedIn(s.journal, rep, r)
    ensures t.starts == s.starts && t.nextRun == s.nextRun && t.creator == s.creator
  {
    r := if run.cost.Some? then run else run.(cost := Some(a.cost(rep)));
    var u := Put(s.(journal := s.journal.(runs := s.journal.runs[rep := r])), pid, Scrubbing(rep, r));
    if run.cost.Some? { assert s.journal.runs[rep := r] == s.journal.runs; }
    NoStep(Onward(pid, a), s);
    Then(pid, a, s, s, u);
    t := Scrubs(pid, a, u, rep, r, id);
    WayOn(Onward(pid, a), s, u, t);
    assert t.journal == ScrubbedIn(s.journal, rep, r);
  }

  /** From the running provider run on: its evidence is recorded. */
  lemma Records(pid: nat, a: Answers, s: Sys, rep: Rep, run: Run, id: nat) returns (t: Sys, r: Run)
    requires pid < |s.procs| && s.procs[pid] == Observing(rep, id) && Sane(a) && RunOk(run)
    requires Has(s.journal, rep) && s.journal.runs[rep] == run && run.state.Running? && run.id == Some(id)
    ensures Comes(pid, a, s, t) && t.procs == s.procs[pid := Settling(rep, r)] && RunOk(r)
    ensures r == run.(state := Verdict(a.evidence(rep)), evidence := Some(a.evidence(rep)),
                      terminalizedAt := s.journal.now)
    ensures t == Put(s.(journal := s.journal.(runs := s.journal.runs[rep := r])), pid, Settling(rep, r))
  {
    var v := a.evidence(rep);
    r := run.(state := Verdict(v), evidence := Some(v), terminalizedAt := s.journal.now);
    var recording := Put(s, pid, Recording(rep, id, v));
    t := Put(s.(journal := s.journal.(runs := s.journal.runs[rep := r])), pid, Settling(rep, r));
    NoStep(Onward(pid, a), s);
    Then(pid, a, s, s, recording);
    Then(pid, a, s, recording, t);
  }

  /** A repetition that does not exist yet is reserved. */
  lemma Reserves(pid: nat, a: Answers, s: Sys, rep: Rep, j: Journal) returns (t: Sys)
    requires pid < |s.procs| && s.procs[pid] == Loading(rep) && !Has(s.journal, rep)
    requires Reserve(s.journal, rep) == (j, Created)
    ensures Comes(pid, a, s, t)
    ensures t == Put(s.(journal := j, creator := s.creator[rep := pid]), pid, Launching(rep))
  {
    var reserving := Put(s, pid, Reserving(rep));
    t := Put(s.(journal := j, creator := s.creator[rep := pid]), pid, Launching(rep));
    NoStep(Onward(pid, a), s);
    Then(pid, a, s, s, reserving);
    Then(pid, a, s, reserving, t);
  }

  /** Then it is started and checkpointed. */
  lemma Launches(pid: nat, a: Answers, s: Sys, rep: Rep, j: Journal) returns (t: Sys, r: Run)
    requires pid < |s.procs| && s.procs[pid] == Loading(rep) && !Has(s.journal, rep)
    requires Reserve(s.journal, rep) == (j, Created) && !IdTaken(j, rep, s.nextRun)
    requires Has(j, rep) && j.runs[rep] == Reserved(s.journal.now)
    ensures Comes(pid, a, s, t) && t.procs == s.procs[pid := Observing(rep, s.nextRun)]
    ensures r == Reserved(s.journal.now).(state := Running, id := Some(s.nextRun)) && RunOk(r)
    ensures t.journal == j.(runs := j.runs[rep := r]) && t.nextRun == s.nextRun + 1
    ensures t.starts == s.starts + [(rep, pid)]
  {
    r := Reserved(s.journal.now).(state := Running, id := Some(s.nextRun));
    var launching := Reserves(pid, a, s, rep, j);
    var checkpointing := Put(launching.(starts := s.starts + [(rep, pid)], nextRun := s.nextRun + 1), pid,
                             Checkpointing(rep, s.nextRun));
    t := Put(checkpointing.(journal := j.(runs := j.runs[rep := r])), pid, Observing(rep, s.nextRun));
    Then(pid, a, s, launching, checkpointing);
    Then(pid, a, s, checkpointing, t);
  }

  // ---- The way to the report of one repetition ----

  predicate Going(j: Journal, rep: Rep) { Has(j, rep) && (j.runs[rep].state.Running? || Ended(j.runs[rep])) }

  /** A fresh invocation can bring the repetition to its end: it is running or ended, or can be reserved. */
  ghost predicate Reachable(s: Sys, rep: Rep) {
    && JournalOk(s.journal) && IdsOk(s.journal, s.nextRun)
    && (Going(s.journal, rep) || (!Has(s.journal, rep) && Reserve(s.journal, rep).1.Created?))
  }

  lemma Fits(j: Journal, rep: Rep, next: nat)
    requires JournalOk(j) && IdsOk(j, next) && !Has(j, rep) && Reserve(j, rep).1.Created?
    ensures var j' := Reserve(j, rep).0; Has(j', rep) && !IdTaken(j', rep, next) && j'.phase == Active
    ensures var j' := Reserve(j, rep).0;
      && j'.now == j.now && j'.runs == (if j.Journal? then j.runs else map[])[rep := Reserved(j.now)]
  {
    forall r | Has(j, r) && j.runs[r].id.Some? ensures j.runs[r].id.value < next {}
  }

  function Entered(j: Journal, rep: Rep): Journal { if Has(j, rep) then j else Reserve(j, rep).0 }

  /** The record once its verdict is known. */
  predicate Judged(before: Journal, rep: Rep, a: Answers, r: Run) {
    && RunOk(r) && Ended(r) && r.id.Some?
    && (if Has(before, rep) && Ended(before.runs[rep]) then r == before.runs[rep]
        else r.evidence == Some(a.evidence(rep)) && r.cost.None? && r.terminalizedAt == before.now)
    && (Has(before, rep) ==> r.id == before.runs[rep].id)
  }

  ghost predicate AtVerdict(pid: nat, a: Answers, s: Sys, rep: Rep, t: Sys, r: Run) {
    && pid < |s.procs| && Comes(pid, a, s, t) && t.procs == s.procs[pid := Settling(rep, r)]
    && Has(Entered(s.journal, rep), rep) && Judged(s.journal, rep, a, r)
    && t.journal == Entered(s.journal, rep).(runs := Entered(s.journal, rep).runs[rep := r])
    && t.starts == s.starts + (if Has(s.journal, rep) then [] else [(rep, pid)])
    && s.nextRun <= t.nextRun && r.id.value < t.nextRun
  }

  lemma FreshVerdict(pid: nat, a: Answers, s: Sys, rep: Rep) returns (t: Sys, r: Run)
    requires pid < |s.procs| && s.procs[pid] == Loading(rep) && Sane(a) && Reachable(s, rep) && !Has(s.journal, rep)
    ensures AtVerdict(pid, a, s, rep, t, r)
  {
    Fits(s.journal, rep, s.nextRun);
    var u;
    u, r := Launches(pid, a, s, rep, Reserve(s.journal, rep).0);
    t, r := Records(pid, a, u, rep, r, s.nextRun);
    WayOn(Onward(pid, a), s, u, t);
  }

  lemma KnownVerdict(pid: nat, a: Answers, s: Sys, rep: Rep) returns (t: Sys, r: Run)
    requires pid < |s.procs| && s.procs[pid] == Loading(rep) && Sane(a) && Reachable(s, rep) && Has(s.journal, rep)
    ensures AtVerdict(pid, a, s, rep, t, r)
  {
    r := s.journal.runs[rep];
    assert RunOk(r);
    NoStep(Onward(pid, a), s);
    if r.state.Running? {
      var u := Put(s, pid, Observing(rep, r.id.value));
      Then(pid, a, s, s, u);
      t, r := Records(pid, a, u, rep, r, r.id.value);
      WayOn(Onward(pid, a), s, u, t);
    } else {
      t := Put(s, pid, Settling(rep, r));
      assert s.journal.runs[rep := r] == s.journal.runs;
      Then(pid, a, s, s, t);
    }
  }

  /** The record once its cost is known too. */
  function Priced(r: Run, rep: Rep, a: Answers): Run { if r.cost.Some? then r else r.(cost := Some(a.cost(rep))) }

  lemma JudgedAnswers(before: Journal, rep: Rep, a: Answers, r: Run)
    requires Judged(before, rep, a, r) && (Has(before, rep) ==> RunOk(before.runs[rep]))
    ensures Answered(before, rep, a, Scrubbed(Priced(r, rep, a)))
  {}

  /** From the first look at a repetition to its scrubbed record. */
  lemma Brings(pid: nat, a: Answers, s: Sys, rep: Rep) returns (t: Sys, r: Run)
    requires pid < |s.procs| && s.procs[pid] == Loading(rep) && Sane(a) && Reachable(s, rep)
    ensures Comes(pid, a, s, t) && t.procs == s.procs[pid := Scrubbing(rep, Scrubbed(Priced(r, rep, a)))]
    ensures Has(Entered(s.journal, rep), rep) && Judged(s.journal, rep, a, r)
    ensures t.journal == ScrubbedIn(Entered(s.journal, rep), rep, Priced(r, rep, a))
    ensures t.starts == s.starts + if Has(s.journal, rep) then [] else [(rep, pid)]
  {
    var u, priced;
    if Has(s.journal, rep) { u, r := KnownVerdict(pid, a, s, rep); } else { u, r := FreshVerdict(pid, a, s, rep); }
    t, priced := Settles(pid, a, u, rep, r, r.id.value);
    WayOn(Onward(pid, a), s, u, t);
    assert t.procs == s.procs[pid := Scrubbing(rep, Scrubbed(priced))];
    ScrubbedOver(Entered(s.journal, rep), rep, r, priced);
  }

  lemma ScrubbedOver(j: Journal, rep: Rep, r: Run, priced: Run)
    requires j.Journal?
    ensures ScrubbedIn(j.(runs := j.runs[rep := r]), rep, priced) == ScrubbedIn(j, rep, priced)
  {
    assert j.runs[rep := r][rep := Scrubbed(priced)] == j.runs[rep := Scrubbed(priced)];
  }

  // ---- The end ----

  /** With every repetition ready and the reason true, the invocation closes the experiment under it. */
  lemma Closes(pid: nat, a: Answers, s: Sys, reason: Reason) returns (t: Sys)
    requires pid < |s.procs| && s.procs[pid] == Beginning(reason) && JournalOk(s.journal) && s.journal.Journal?
    requires Begin(s.journal, reason, a.token).1.Some? && !Cleaning(s.journal)
    ensures Comes(pid, a, s, t) && t.procs == s.procs[pid := Halted]
    ensures t.journal == s.journal.(sourceCleaned := ALL, phase := Finished(reason, a.token))
    ensures t.starts == s.starts && t.nextRun == s.nextRun
  {
    var j := Begin(s.journal, reason, a.token).0;
    BeginsUnderClaim(s.journal, reason, a.token);
    var u := Put(s.(journal := j), pid, Doing(ClosingProgram(a.token), Halt));
    NoStep(Onward(pid, a), s);
    Then(pid, a, s, s, u);
    t := ClosesFrom(pid, a, u, a.token);
    WayOn(Onward(pid, a), s, u, t);
  }

  lemma ClosesFrom(pid: nat, a: Answers, s: Sys, claim: nat) returns (t: Sys)
    requires pid < |s.procs| && s.procs[pid] == Doing(ClosingProgram(claim), Halt) && UnderClaim(s.journal, claim)
    ensures Comes(pid, a, s, t) && t.procs == s.procs[pid := Halted] && t.journal == TerminalOf(s.journal, claim)
    ensures t.starts == s.starts && t.nextRun == s.nextRun
  {
    ClosingWorks(s.journal, s.absent, claim);
    t := Performs(pid, a, s, ClosingProgram(claim));
  }

  /** The invocation of the script can be brought to its end from here. */
  ghost predicate Resumable(s: Sys) {
    var j := s.journal;
    && JournalOk(j) && IdsOk(j, s.nextRun) && !Cleaning(j)
    && (forall rep :: Has(j, rep) ==> Going(j, rep))
    && (Has(j, First) && !Has(j, Second) && Ended(j.runs[First]) ==>
          j.now < j.runs[First].terminalizedAt + HOUR
          && (j.runs[First].gate == Some(true) ==> j.phase.Awaiting?))
  }

  lemma Opens(pid: nat, a: Answers, s: Sys) returns (t: Sys)
    requires pid < |s.procs| && s.procs[pid].Opening? && !Cleaning(s.journal)
    ensures Comes(pid, a, s, t) && t == Put(s, pid, Loading(First))
  {
    t := Put(s, pid, Loading(First));
    NoStep(Onward(pid, a), s);
    Then(pid, a, s, s, t);
  }

  /** After a scrubbed repetition: where its gate leads. */
  function Onto(rep: Rep, passed: bool): Stage {
    if !passed then Beginning(StrictFailure) else if rep.First? then Loading(Second) else Beginning(Completed)
  }

  lemma Decides(pid: nat, a: Answers, s: Sys, rep: Rep, r: Run) returns (t: Sys)
    requires pid < |s.procs| && s.procs[pid] == Scrubbing(rep, Scrubbed(r)) && r.id.Some?
    ensures Comes(pid, a, s, t) && t == Put(s, pid, Onto(rep, DurableGate(r)))
  {
    t := Put(s, pid, Onto(rep, DurableGate(r)));
    NextOrNone(Scrubbed(r).cleaned);
    NoStep(Onward(pid, a), s);
    Then(pid, a, s, s, t);
  }

  /** A repetition brought to its end, and its gate looked at. */
  ghost predicate Brought(pid: nat, a: Answers, s: Sys, rep: Rep, t: Sys, r: Run) {
    && pid < |s.procs| && t.procs == s.procs[pid := Onto(rep, DurableGate(Priced(r, rep, a)))]
    && Has(Entered(s.journal, rep), rep) && Judged(s.journal, rep, a, r)
    && t.journal == ScrubbedIn(Entered(s.journal, rep), rep, Priced(r, rep, a))
    && t.starts == s.starts + (if Has(s.journal, rep) then [] else [(rep, pid)])
  }

  lemma DecidedIsBrought(pid: nat, a: Answers, s: Sys, rep: Rep, u: Sys, t: Sys, r: Run)
    requires pid < |s.procs| && u.procs == s.procs[pid := Scrubbing(rep, Scrubbed(Priced(r, rep, a)))]
    requires Has(Entered(s.journal, rep), rep) && Judged(s.journal, rep, a, r)
    requires u.journal == ScrubbedIn(Entered(s.journal, rep), rep, Priced(r, rep, a))
    requires u.starts == s.starts + if Has(s.journal, rep) then [] else [(rep, pid)]
    requires t == Put(u, pid, Onto(rep, DurableGate(Priced(r, rep, a))))
    ensures Brought(pid, a, s, rep, t, r)
  {
    assert t.procs == s.procs[pid := Onto(rep, DurableGate(Priced(r, rep, a)))];
  }

  lemma BringsOne(pid: nat, a: Answers, s: Sys, rep: Rep) returns (t: Sys, r: Run)
    requires pid < |s.procs| && s.procs[pid] == Loading(rep) && Sane(a) && Reachable(s, rep) && SysOk(s)
    ensures Comes(pid, a, s, t) && SysOk(t) && Brought(pid, a, s, rep, t, r)
  {
    var u;
    u, r := Brings(pid, a, s, rep);
    t := Decides(pid, a, u, rep, Priced(r, rep, a));
    DecidedIsBrought(pid, a, s, rep, u, t, r);
    WayOn(Onward(pid, a), s, u, t);
    ComesSoundly(pid, a, s, t);
  }

  // ---- The script from any journal that can be resumed ----

  lemma CanClose(j: Journal, reason: Reason, token: nat)
    requires JournalOk(j) && j.Journal? && !Cleaning(j) && forall rep :: rep in j.runs ==> Ready(j.runs[rep])
    requires (reason.Completed? && Second in j.runs && j.runs[Second].gate == Some(true))
          || (reason.StrictFailure? && exists rep :: rep in j.runs && j.runs[rep].gate == Some(false))
    ensures Begin(j, reason, token).1.Some?
  {
    assert First in j.runs;
  }

  /** The reason the gates call for. */
  function Due(j: Journal): Reason {
    if Has(j, Second) && j.runs[Second].gate == Some(true) then Completed else StrictFailure
  }

  lemma KnownPassed(j: Journal, a: Answers, r: Run)
    requires JournalOk(j) && Has(j, Second) && Judged(j, First, a, r)
    ensures Has(j, First) && r == j.runs[First] && r.gate == Some(true) && DurableGate(Priced(r, First, a))
    ensures r.cleaned == ALL && Priced(r, First, a) == r && Scrubbed(r) == r
  {
    assert RunOk(j.runs[First]) && Passed(j);
  }

  lemma FailedAlone(j: Journal, j': Journal, a: Answers, r: Run)
    requires JournalOk(j) && !Cleaning(j) && Has(Entered(j, First), First) && Judged(j, First, a, r)
    requires j' == ScrubbedIn(Entered(j, First), First, Priced(r, First, a)) && !DurableGate(Priced(r, First, a))
    ensures !Cleaning(j') && j'.runs.Keys == {First} && Ready(j'.runs[First]) && j'.runs[First].gate == Some(false)
  {
    if Has(j, Second) { KnownPassed(j, a, r); }
    forall rep | rep in j'.runs ensures rep == First { assert rep.First? || rep.Second?; }
  }

  /** A failed first repetition ends the experiment. */
  lemma FirstFails(pid: nat, a: Answers, s: Sys, t: Sys, r: Run) returns (u: Sys)
    requires Brought(pid, a, s, First, t, r) && SysOk(s) && SysOk(t) && !Cleaning(s.journal)
    requires !DurableGate(Priced(r, First, a))
    ensures Comes(pid, a, t, u) && u.procs == s.procs[pid := Halted] && u.starts == t.starts
    ensures u.journal == t.journal.(sourceCleaned := ALL, phase := Finished(StrictFailure, a.token))
    ensures !Has(t.journal, Second)
  {
    FailedAlone(s.journal, t.journal, a, r);
    CanClose(t.journal, StrictFailure, a.token);
    u := Closes(pid, a, t, StrictFailure);
    assert u.procs == s.procs[pid := Halted];
  }

  /** A passed one leads to the second, which can be brought to its end in turn. */
  lemma SecondIsReachable(pid: nat, a: Answers, s: Sys, t: Sys, r: Run)
    requires Brought(pid, a, s, First, t, r) && SysOk(s) && SysOk(t) && Resumable(s) && DurableGate(Priced(r, First, a))
    ensures Reachable(t, Second) && !Cleaning(t.journal)
    ensures Has(t.journal, Second) <==> Has(s.journal, Second)
    ensures Has(s.journal, Second) ==> t.journal.runs[Second] == s.journal.runs[Second]
  {
    if Has(s.journal, Second) {
      KnownPassed(s.journal, a, r);
    } else {
      SecondCanBeReserved(s.journal, t.journal, a, r);
    }
  }

  lemma SecondCanBeReserved(j: Journal, j': Journal, a: Answers, r: Run)
    requires JournalOk(j) && !Cleaning(j) && !Has(j, Second) && Has(Entered(j, First), First)
    requires Judged(j, First, a, r) && j' == ScrubbedIn(Entered(j, First), First, Priced(r, First, a))
    requires DurableGate(Priced(r, First, a)) && (Has(j, First) ==> Going(j, First))
    requires Has(j, First) && Ended(j.runs[First]) ==>
      j.now < j.runs[First].terminalizedAt + HOUR && (j.runs[First].gate == Some(true) ==> j.phase.Awaiting?)
    ensures !Cleaning(j') && !Has(j', Second) && Reserve(j', Second).1.Created?
  {
    if Has(j, First) { assert RunOk(j.runs[First]); }
    assert Passed(j');
  }

  lemma BothReady(j: Journal, j': Journal, a: Answers, r: Run)
    requires JournalOk(j) && JournalOk(j') && !Cleaning(j) && Has(Entered(j, Second), Second) && Has(j, First)
    requires Judged(j, Second, a, r) && j' == ScrubbedIn(Entered(j, Second), Second, Priced(r, Second, a))
    ensures !Cleaning(j') && forall rep :: rep in j'.runs ==> Ready(j'.runs[rep])
    ensures j'.runs[Second].gate == Some(DurableGate(Priced(r, Second, a)))
    ensures Has(j', First) && j'.runs[First] == j.runs[First]
  {
    assert RunOk(j'.runs[First]) && Passed(j');
    forall rep | rep in j'.runs ensures Ready(j'.runs[rep]) { assert rep == First || rep == Second; }
  }

  /** The second repetition ends the experiment either way. */
  lemma SecondEnds(pid: nat, a: Answers, s: Sys, t: Sys, r: Run) returns (u: Sys)
    requires Brought(pid, a, s, Second, t, r) && SysOk(s) && SysOk(t)
    requires Has(s.journal, First) && !Cleaning(s.journal)
    ensures Comes(pid, a, t, u) && u.procs == s.procs[pid := Halted] && u.starts == t.starts
    ensures u.journal == t.journal.(sourceCleaned := ALL, phase := Finished(Due(t.journal), a.token))
    ensures Has(t.journal, First) && t.journal.runs[First] == s.journal.runs[First]
  {
    BothReady(s.journal, t.journal, a, r);
    CanClose(t.journal, Due(t.journal), a.token);
    u := Closes(pid, a, t, Due(t.journal));
    assert u.procs == s.procs[pid := Halted];
  }

  /** What the experiment is at the end of an undisturbed invocation. */
  ghost predicate Concluded(pid: nat, a: Answers, s: Sys, t: Sys) {
    && pid < |s.procs| && Comes(pid, a, s, t) && t.procs == s.procs[pid := Halted]
    && Has(t.journal, First) && Answered(s.journal, First, a, t.journal.runs[First])
    && (Has(t.journal, Second) <==> t.journal.runs[First].gate == Some(true))
    && (Has(t.journal, Second) ==> Answered(s.journal, Second, a, t.journal.runs[Second]))
    && t.journal.phase == Finished(Due(t.journal), a.token)
  }

  lemma BroughtAnswers(pid: nat, a: Answers, s: Sys, rep: Rep, t: Sys, r: Run)
    requires Brought(pid, a, s, rep, t, r) && SysOk(s)
    ensures Has(t.journal, rep) && Answered(s.journal, rep, a, t.journal.runs[rep])
    ensures t.journal.runs[rep].gate == Some(DurableGate(Priced(r, rep, a)))
  {
    if Has(s.journal, rep) { assert RunOk(s.journal.runs[rep]); }
    JudgedAnswers(s.journal, rep, a, r);
  }

  /** The second repetition, from the first look at it to the end. */
  lemma SecondConcludes(pid: nat, a: Answers, s: Sys) returns (t: Sys)
    requires pid < |s.procs| && s.procs[pid] == Loading(Second) && Sane(a) && Reachable(s, Second) && SysOk(s)
    requires Has(s.journal, First) && !Cleaning(s.journal)
    ensures Comes(pid, a, s, t) && t.procs == s.procs[pid := Halted]
    ensures Has(t.journal, First) && t.journal.runs[First] == s.journal.runs[First]
    ensures Has(t.journal, Second) && Answered(s.journal, Second, a, t.journal.runs[Second])
    ensures t.journal.phase == Finished(Due(t.journal), a.token)
  {
    var u, r := BringsOne(pid, a, s, Second);
    BroughtAnswers(pid, a, s, Second, u, r);
    t := SecondEnds(pid, a, s, u, r);
    WayOn(Onward(pid, a), s, u, t);
  }

  /** From the second repetition on. */
  lemma GoesOn(pid: nat, a: Answers, s: Sys, t: Sys, r: Run) returns (u: Sys)
    requires Brought(pid, a, s, First, t, r) && SysOk(s) && SysOk(t) && Resumable(s) && Sane(a)
    requires DurableGate(Priced(r, First, a))
    ensures Comes(pid, a, t, u) && u.procs == s.procs[pid := Halted]
    ensures Has(u.journal, First) && u.journal.runs[First] == t.journal.runs[First]
    ensures Has(u.journal, Second) && Answered(s.journal, Second, a, u.journal.runs[Second])
    ensures u.journal.phase == Finished(Due(u.journal), a.token)
  {
    SecondIsReachable(pid, a, s, t, r);
    u := SecondConcludes(pid, a, t);
    assert u.procs == s.procs[pid := Halted];
  }

  /** Run alone, with every call working, from any reachable state whose journal can be resumed, the script
      makes the experiment terminal: as completed exactly if both gates are true, and as a strict failure
      otherwise. Each repetition is as it was recorded before, and otherwise as the provider answered; the
      second one exists exactly if the gate of the first is true. */
  lemma ScriptConcludes(pid: nat, a: Answers, s: Sys) returns (t: Sys)
    requires SysOk(s) && pid < |s.procs| && s.procs[pid].Opening? && Resumable(s) && Sane(a)
    ensures Concluded(pid, a, s, t)
    ensures t.journal.phase.reason.Completed? <==>
      t.journal.runs[First].gate == Some(true) && Has(t.journal, Second) && t.journal.runs[Second].gate == Some(true)
  {
    var u := Opens(pid, a, s);
    ComesSoundly(pid, a, s, u);
    var first, r := BringsOne(pid, a, u, First);
    BroughtAnswers(pid, a, u, First, first, r);
    if DurableGate(Priced(r, First, a)) {
      t := GoesOn(pid, a, u, first, r);
    } else {
      t := FirstFails(pid, a, u, first, r);
    }
    WayOn(Onward(pid, a), u, first, t);
    WayOn(Onward(pid, a), s, u, t);
    assert t.procs == s.procs[pid := Halted];
  }

  /** The script's gate on the answered evidence, and the cost ceiling of one run. */
  predicate Passes(a: Answers, rep: Rep) { GatePassed(a.evidence(rep)) && a.cost(rep) <= MAX_RUN_CHARGE }

  /** So from nothing, the answers alone decide the end: completed exactly if both repetitions pass the
      script's gate at a cost within the ceiling of one run, each started once. */
  lemma AnswersDecide(now: nat, a: Answers) returns (events: seq<Event>, t: Sys)
    requires Sane(a)
    ensures Reaches(Start(now), events, t) && t.journal.Journal? && t.journal.phase.Finished?
    ensures t.journal.phase.reason.Completed? <==> Passes(a, First) && Passes(a, Second)
    ensures !t.journal.phase.reason.Completed? ==> t.journal.phase.reason.StrictFailure?
  {
    var s := Next(Start(now), Spawn(Opening));
    t := ScriptConcludes(0, a, s);
    var trace :| Trace(Onward(0, a), s, t, trace);
    var rest := ComesInTurns(0, a, s, t, trace);
    Prepend(Start(now), Spawn(Opening), s, rest, t);
    events := [Spawn(Opening)] + rest;
    ComesSoundly(0, a, s, t);
    GatesFollow(now, a, t.journal);
  }

  lemma GatesFollow(now: nat, a: Answers, j: Journal)
    requires Has(j, First) && Answered(NoJournal(now), First, a, j.runs[First])
    requires Has(j, Second) <==> j.runs[First].gate == Some(true)
    requires Has(j, Second) ==> Answered(NoJournal(now), Second, a, j.runs[Second])
    requires forall rep :: Has(j, rep) ==> RunOk(j.runs[rep])
    ensures Has(j, Second) && j.runs[Second].gate == Some(true) <==> Passes(a, First) && Passes(a, Second)
  {
    assert j.runs[First].gate == Some(true) <==> Passes(a, First);
    assert Has(j, Second) ==> (j.runs[Second].gate == Some(true) <==> Passes(a, Second));
  }
}
