/** Cleanup that an earlier invocation began, or that falls to the finaliser or the recovery: undisturbed,
    each takes the experiment to its end under the reason that is due. */
module CanaryCleanup {
  import opened Basics
  import opened CanaryJournal
  import opened CanaryPrograms
  import opened CanaryProcesses
  import opened CanaryRuns

  lemma InventoryFound(j: Journal)
    requires j.Journal?
    ensures AllFound(j, InventoryOf(j))
  {}

  /** From its inventory on, a sweep makes the experiment terminal under the reason it was begun for. */
  lemma Sweeps(pid: nat, a: Answers, s: Sys, claim: nat) returns (t: Sys)
    requires pid < |s.procs| && s.procs[pid] == Inventory(claim) && UnderClaim(s.journal, claim)
    ensures Comes(pid, a, s, t) && t.procs == s.procs[pid := Halted] && t.journal == TerminalOf(s.journal, claim)
  {
    var refs := InventoryOf(s.journal);
    var u := Put(s, pid, Doing(SweepProgram(refs, claim), Halt));
    NoStep(Onward(pid, a), s);
    Then(pid, a, s, s, u);
    InventoryFound(s.journal);
    SweepWorks(s.journal, s.absent, refs, claim);
    t := Performs(pid, a, u, SweepProgram(refs, claim));
    WayOn(Onward(pid, a), s, u, t);
  }

  /** A script invoked while cleanup is under way takes it to its end. */
  lemma ScriptResumesCleanup(pid: nat, a: Answers, s: Sys) returns (t: Sys)
    requires SysOk(s) && pid < |s.procs| && s.procs[pid].Opening? && s.journal.Journal?
    requires s.journal.phase.Terminalizing?
    ensures Comes(pid, a, s, t) && t.procs == s.procs[pid := Halted]
    ensures t.journal == TerminalOf(s.journal, s.journal.phase.claim)
  {
    var u := Put(s, pid, Inventory(s.journal.phase.claim));
    NoStep(Onward(pid, a), s);
    Then(pid, a, s, s, u);
    t := Sweeps(pid, a, u, s.journal.phase.claim);
    WayOn(Onward(pid, a), s, u, t);
  }

  lemma Claims(pid: nat, a: Answers, s: Sys, t: Sys)
    requires pid < |s.procs| && s.procs[pid].Claiming?
    requires t == Put(s.(journal := ClaimExpired(s.journal, a.token).0), pid,
                      if ClaimExpired(s.journal, a.token).1 then Inventory(a.token) else Halted)
    ensures Comes(pid, a, s, t)
  {
    NoStep(Onward(pid, a), s);
    Then(pid, a, s, s, t);
  }

  lemma ClaimsUnderClaim(j: Journal, token: nat)
    requires JournalOk(j) && ClaimExpired(j, token).1
    ensures var j' := ClaimExpired(j, token).0;
      UnderClaim(j', token) && j'.phase.reason == if j.phase.Awaiting? then Expired else j.phase.reason
  {
    CommitOk(j, TClaimExpired(token));
  }

  /** So does the recovery, exactly if the waiting has expired or the cleanup lease has run out; it then
      closes an experiment nobody came back to as expired, and any other under its own reason. */
  lemma RecoveryConcludes(pid: nat, a: Answers, s: Sys) returns (t: Sys)
    requires SysOk(s) && pid < |s.procs| && s.procs[pid].Claiming?
    ensures Comes(pid, a, s, t) && t.procs == s.procs[pid := Halted]
    ensures if ClaimExpired(s.journal, a.token).1
            then t.journal.Journal? && t.journal.phase == Finished(
                   if s.journal.phase.Awaiting? then Expired else s.journal.phase.reason, a.token)
            else t.journal == s.journal
  {
    var (j, done) := ClaimExpired(s.journal, a.token);
    var u := Put(s.(journal := j), pid, if done then Inventory(a.token) else Halted);
    Claims(pid, a, s, u);
    if done {
      ClaimsUnderClaim(s.journal, a.token);
      t := Sweeps(pid, a, u, a.token);
      WayOn(Onward(pid, a), s, u, t);
    } else {
      t := u;
    }
  }

  /** The finaliser performs its program under a claim. */
  lemma Finalises(pid: nat, a: Answers, s: Sys, c: Context, claim: nat) returns (t: Sys)
    requires pid < |s.procs| && s.procs[pid] == Doing(FinaliserProgram(c, claim), Halt)
    requires UnderClaim(s.journal, claim) && AllFound(s.journal, c.canaries)
    requires c.sourceCleaned <= s.journal.sourceCleaned
    ensures Comes(pid, a, s, t) && t.procs == s.procs[pid := Halted] && t.journal == TerminalOf(s.journal, claim)
  {
    FinaliserWorks(s.journal, s.absent, c, claim);
    t := Performs(pid, a, s, FinaliserProgram(c, claim));
  }

  /** The inventory of a cleanup under way is read ref by ref. */
  lemma {:induction false} ReadsOn(pid: nat, a: Answers, s: Sys, claim: nat, c: Context, left: seq<CanaryRef>)
    returns (t: Sys, c': Context)
    requires pid < |s.procs| && s.procs[pid] == FinResuming(claim, c, left)
    requires UnderClaim(s.journal, claim) && AllFound(s.journal, c.canaries) && AllFound(s.journal, left)
    requires AllSettled(c) && c.sourceCleaned <= s.journal.sourceCleaned
    ensures Comes(pid, a, s, t) && t == Put(s, pid, Doing(FinaliserProgram(c', claim), Halt))
    ensures AllFound(s.journal, c'.canaries) && c'.sourceCleaned == c.sourceCleaned
    decreases left
  {
    NoStep(Onward(pid, a), s);
    if left == [] {
      c' := c;
      t := Put(s, pid, Doing(FinaliserProgram(c, claim), Halt));
      Then(pid, a, s, s, t);
    } else {
      var more := Adding(c, RefOf(s.journal, left[0].rep));
      assert Found(s.journal, left[0]) && Ready(s.journal.runs[left[0].rep]) && RunOk(s.journal.runs[left[0].rep]);
      var u := Put(s, pid, FinResuming(claim, more, left[1..]));
      Then(pid, a, s, s, u);
      t, c' := ReadsOn(pid, a, u, claim, more, left[1..]);
      WayOn(Onward(pid, a), s, u, t);
    }
  }

  lemma FindsCleanup(pid: nat, a: Answers, s: Sys, claim: nat, t: Sys)
    requires pid < |s.procs| && s.procs[pid].FinOpening? && Holds(s.journal, claim)
    requires t == Put(s, pid, FinResuming(claim, Context([], s.journal.sourceCleaned), InventoryOf(s.journal)))
    ensures Comes(pid, a, s, t)
  {
    var inventory := Put(s, pid, FinInventory(claim, s.journal.sourceCleaned));
    NoStep(Onward(pid, a), s);
    Then(pid, a, s, s, inventory);
    Then(pid, a, s, inventory, t);
  }

  /** A finaliser invoked while cleanup is under way takes it to its end. */
  lemma FinaliserResumesCleanup(pid: nat, a: Answers, s: Sys) returns (t: Sys)
    requires SysOk(s) && pid < |s.procs| && s.procs[pid].FinOpening? && s.journal.Journal?
    requires s.journal.phase.Terminalizing?
    ensures Comes(pid, a, s, t) && t.procs == s.procs[pid := Halted]
    ensures t.journal == TerminalOf(s.journal, s.journal.phase.claim)
  {
    var claim := s.journal.phase.claim;
    var context, refs := Context([], s.journal.sourceCleaned), InventoryOf(s.journal);
    var resuming := Put(s, pid, FinResuming(claim, context, refs));
    FindsCleanup(pid, a, s, claim, resuming);
    InventoryFound(s.journal);
    var u, full := ReadsOn(pid, a, resuming, claim, context, refs);
    WayOn(Onward(pid, a), s, resuming, u);
    t := Finalises(pid, a, u, full, claim);
    WayOn(Onward(pid, a), s, u, t);
  }

  /** Invoked while the experiment waits for a second repetition that has not come, the finaliser closes
      it as aborted. */
  lemma FinaliserAborts(pid: nat, a: Answers, s: Sys) returns (t: Sys)
    requires SysOk(s) && pid < |s.procs| && s.procs[pid].FinOpening?
    requires s.journal.Journal? && s.journal.phase.Awaiting? && !Has(s.journal, Second)
    ensures Comes(pid, a, s, t) && t.procs == s.procs[pid := Halted]
    ensures t.journal == s.journal.(sourceCleaned := ALL, phase := Finished(Aborted, a.token))
  {
    var u, c := ReadsFirst(pid, a, s);
    t := AbortsFrom(pid, a, u, c);
    WayOn(Onward(pid, a), s, u, t);
  }

  lemma AbortsFrom(pid: nat, a: Answers, s: Sys, c: Context) returns (t: Sys)
    requires pid < |s.procs| && s.procs[pid] == FinBeginning(c) && JournalOk(s.journal)
    requires s.journal.Journal? && s.journal.phase.Awaiting? && !Has(s.journal, Second)
    requires AllFound(s.journal, c.canaries) && c.sourceCleaned == {}
    ensures Comes(pid, a, s, t) && t.procs == s.procs[pid := Halted]
    ensures t.journal == s.journal.(sourceCleaned := ALL, phase := Finished(Aborted, a.token))
  {
    AbortIsEntitled(s.journal, a.token);
    var j := Begin(s.journal, Aborted, a.token).0;
    BeginsUnderClaim(s.journal, Aborted, a.token);
    var doing := Put(s.(journal := j), pid, Doing(FinaliserProgram(c, a.token), Halt));
    BeginsAbort(pid, a, s, c, j, doing);
    BegunFound(s.journal, c, a.token);
    t := Finalises(pid, a, doing, c, a.token);
    WayOn(Onward(pid, a), s, doing, t);
  }

  lemma BeginsAbort(pid: nat, a: Answers, s: Sys, c: Context, j: Journal, t: Sys)
    requires pid < |s.procs| && s.procs[pid] == FinBeginning(c)
    requires Begin(s.journal, Aborted, a.token) == (j, Some(a.token))
    requires t == Put(s.(journal := j), pid, Doing(FinaliserProgram(c, a.token), Halt))
    ensures Comes(pid, a, s, t)
  {
    NoStep(Onward(pid, a), s);
    Then(pid, a, s, s, t);
  }

  lemma BegunFound(j: Journal, c: Context, token: nat)
    requires j.Journal? && AllFound(j, c.canaries) && Begin(j, Aborted, token).1.Some?
    ensures AllFound(Begin(j, Aborted, token).0, c.canaries)
  {
    var j' := Begin(j, Aborted, token).0;
    forall i | 0 <= i < |c.canaries| ensures Found(j', c.canaries[i]) {
      assert Found(j, c.canaries[i]);
    }
  }

  lemma AbortIsEntitled(j: Journal, token: nat)
    requires JournalOk(j) && j.Journal? && j.phase.Awaiting? && !Has(j, Second)
    ensures Begin(j, Aborted, token).1.Some? && j.runs.Keys == {First} && j.runs[First].id.Some?
  {
    assert RunOk(j.runs[First]) && Passed(j);
    forall rep | rep in j.runs ensures rep == First { assert rep.First? || rep.Second?; }
  }

  lemma ReadsRep(pid: nat, a: Answers, s: Sys, c: Context, reps: seq<Rep>, t: Sys)
    requires pid < |s.procs| && s.procs[pid] == FinReading(c, reps) && reps != []
    requires Has(s.journal, reps[0]) ==> s.journal.runs[reps[0]].id.Some?
    requires t == Put(s, pid, FinReading(Adding(c, RefOf(s.journal, reps[0])), reps[1..]))
    ensures Comes(pid, a, s, t)
  {
    if !Has(s.journal, reps[0]) { assert c.canaries + [] == c.canaries; }
    NoStep(Onward(pid, a), s);
    Then(pid, a, s, s, t);
  }

  lemma ReadsAll(pid: nat, a: Answers, s: Sys, c: Context, t: Sys)
    requires pid < |s.procs| && s.procs[pid] == FinReading(c, []) && AllSettled(c)
    requires t == Put(s, pid, FinBeginning(c))
    ensures Comes(pid, a, s, t)
  {
    NoStep(Onward(pid, a), s);
    Then(pid, a, s, s, t);
  }

  lemma Looks(pid: nat, a: Answers, s: Sys, t: Sys)
    requires pid < |s.procs| && s.procs[pid].FinOpening? && s.journal.Journal? && s.journal.phase.Awaiting?
    requires t == Put(s, pid, FinReading(Context([], {}), [First, Second]))
    ensures Comes(pid, a, s, t)
  {
    NoStep(Onward(pid, a), s);
    Then(pid, a, s, s, t);
  }

  lemma ReadsFirst(pid: nat, a: Answers, s: Sys) returns (t: Sys, c: Context)
    requires SysOk(s) && pid < |s.procs| && s.procs[pid].FinOpening?
    requires s.journal.Journal? && s.journal.phase.Awaiting? && !Has(s.journal, Second)
    ensures Comes(pid, a, s, t) && t == Put(s, pid, FinBeginning(c))
    ensures AllFound(s.journal, c.canaries) && c.sourceCleaned == {}
  {
    var none := Context([], {});
    c := FirstContext(s.journal);
    var reading, read := Put(s, pid, FinReading(none, [First, Second])), Put(s, pid, FinReading(c, []));
    t := Put(s, pid, FinBeginning(c));
    Looks(pid, a, s, reading);
    ReadsBoth(pid, a, reading, none, read);
    WayOn(Onward(pid, a), s, reading, read);
    ReadsAll(pid, a, read, c, t);
    WayOn(Onward(pid, a), s, read, t);
  }

  lemma FirstContext(j: Journal) returns (c: Context)
    requires JournalOk(j) && j.Journal? && j.phase.Awaiting? && !Has(j, Second)
    ensures Adding(Adding(Context([], {}), RefOf(j, First)), RefOf(j, Second)) == c && AllSettled(c)
    ensures AllFound(j, c.canaries) && c.sourceCleaned == {}
    ensures forall rep :: Has(j, rep) ==> j.runs[rep].id.Some?
  {
    AbortIsEntitled(j, 0);
    assert RunOk(j.runs[First]) && Passed(j);
    c := Context(RefOf(j, First), {});
    assert Adding(Context([], {}), RefOf(j, First)) == c && Adding(c, RefOf(j, Second)) == c;
  }

  lemma ReadsBoth(pid: nat, a: Answers, s: Sys, c: Context, t: Sys)
    requires pid < |s.procs| && s.procs[pid] == FinReading(c, [First, Second])
    requires forall rep :: Has(s.journal, rep) ==> s.journal.runs[rep].id.Some?
    requires t == Put(s, pid, FinReading(Adding(Adding(c, RefOf(s.journal, First)), RefOf(s.journal, Second)), []))
    ensures Comes(pid, a, s, t)
  {
    var one := Adding(c, RefOf(s.journal, First));
    var u := Put(s, pid, FinReading(one, [Second]));
    assert [First, Second][1..] == [Second] && [Second][1..] == [];
    ReadsRep(pid, a, s, c, [First, Second], u);
    ReadsRep(pid, a, u, one, [Second], t);
    WayOn(Onward(pid, a), s, u, t);
  }
}
