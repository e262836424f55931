/** The canary's journal against what its invocations observed: every recorded verdict, gate and cost
    rests on evidence and usage that were answered for that repetition's own provider run. */
module CanaryEvidence {
  import opened Basics
  import opened CanaryJournal
  import opened CanaryProcesses
  import R = CanaryRuns

  /** What a step was told of a provider run: its evidence, and its stable usage. */
  datatype Fact = Seen(rep: Rep, id: nat, evidence: Evidence) | Usage(rep: Rep, id: nat, cost: nat)

  function Told(s: Sys, e: Event): set<Fact>
    requires Enabled(s, e)
  {
    if !e.Turn? then {}
    else
      match s.procs[e.pid]
      case Observing(rep, id) => if e.choice.ok then {Seen(rep, id, e.choice.evidence)} else {}
      case Settling(rep, run) =>
        if e.choice.cost.Some? && run.id.Some? then {Usage(rep, run.id.value, e.choice.cost.value)} else {}
      case _ => {}
  }

  /** Everything the invocations of a run were told. */
  ghost function AllTold(s: Sys, events: seq<Event>): set<Fact>
    decreases events
  {
    if events == [] || !Enabled(s, events[0]) then {}
    else Told(s, events[0]) + AllTold(Next(s, events[0]), events[1..])
  }

  predicate RecordBacked(rep: Rep, r: Run, told: set<Fact>) {
    && (r.evidence.Some? ==> r.id.Some? && Seen(rep, r.id.value, r.evidence.value) in told)
    && (r.cost.Some? ==>
          (r.state.NoRun? && r.cost == Some(0)) || (r.id.Some? && Usage(rep, r.id.value, r.cost.value) in told))
  }

  ghost predicate JournalBacked(j: Journal, told: set<Fact>) {
    forall rep :: Has(j, rep) ==> RecordBacked(rep, j.runs[rep], told)
  }

  predicate StageBacked(stage: Stage, told: set<Fact>) {
    stage.Recording? ==> Seen(stage.rep, stage.id, stage.evidence) in told
  }

  ghost predicate Backed(s: Sys, told: set<Fact>) {
    JournalBacked(s.journal, told) && forall pid :: 0 <= pid < |s.procs| ==> StageBacked(s.procs[pid], told)
  }

  /** What a transaction must rest on. */
  predicate TxnBacked(t: Txn, told: set<Fact>) {
    && (t.TTerminalize? ==> Seen(t.rep, t.id, t.evidence) in told)
    && (t.TReconcile? ==> Usage(t.rep, t.id, t.cost) in told)
  }

  // ---- One transaction ----

  /** A record is new and blank, got its run, its evidence or its cost from this transaction, or has kept
      all three. */
  ghost predicate Explained(j: Journal, t: Txn, j': Journal, rep: Rep) {
    Has(j', rep) ==>
      var r' := j'.runs[rep];
      || (r'.evidence.None? && r'.cost.None?)
      || (Has(j, rep) &&
          var r := j.runs[rep];
          || (r'.id == r.id && r'.evidence == r.evidence && r'.cost == r.cost && r'.state == r.state)
          || (t.TTerminalize? && t.rep == rep && r'.id == r.id == Some(t.id) && r'.evidence == Some(t.evidence)
              && r'.cost.None?)
          || (t.TReconcile? && t.rep == rep && r'.id == r.id == Some(t.id) && r'.evidence == r.evidence
              && r'.cost == Some(t.cost))
          || (t.TNoRun? && r'.state.NoRun? && r'.cost == Some(0) && r'.evidence.None?))
  }

  lemma RecordExplained(j: Journal, t: Txn, rep: Rep)
    requires JournalOk(j) && (t.TCheckpoint? || t.TAmbiguous? || t.TTerminalize? || t.TReconcile? || t.TAdopt?)
    ensures Explained(j, t, Commit(j, t), rep)
  {
    if Has(j, rep) { assert RunOk(j.runs[rep]); }
    match t
    case TCheckpoint(_, _) =>
    case TAmbiguous(_) =>
    case TTerminalize(_, _, _) =>
    case TReconcile(_, _, _) =>
    case TAdopt(_, _) =>
  }

  lemma ReserveExplained(j: Journal, t: Txn, rep: Rep)
    requires t.TReserve?
    ensures Explained(j, t, Commit(j, t), rep)
  {}

  lemma MarkExplained(j: Journal, t: Txn, rep: Rep)
    requires JournalOk(j) && (t.TMarkRun? || t.TNoRun?)
    ensures Explained(j, t, Commit(j, t), rep)
  {
    if Has(j, rep) { assert RunOk(j.runs[rep]); }
  }

  lemma PhaseExplained(j: Journal, t: Txn, rep: Rep)
    requires t.TBegin? || t.TClaimExpired? || t.TMarkSource? || t.TComplete? || t.TTick?
    ensures Explained(j, t, Commit(j, t), rep)
  {
    assert Has(Commit(j, t), rep) ==> Has(j, rep) && Commit(j, t).runs[rep] == j.runs[rep];
  }

  lemma TxnStaysBacked(j: Journal, t: Txn, told: set<Fact>)
    requires JournalOk(j) && JournalBacked(j, told) && TxnBacked(t, told)
    ensures JournalBacked(Commit(j, t), told)
  {
    var j' := Commit(j, t);
    forall rep | Has(j', rep) ensures RecordBacked(rep, j'.runs[rep], told) {
      if t.TCheckpoint? || t.TAmbiguous? || t.TTerminalize? || t.TReconcile? || t.TAdopt? {
        RecordExplained(j, t, rep);
      } else if t.TReserve? {
        ReserveExplained(j, t, rep);
      } else if t.TMarkRun? || t.TNoRun? {
        MarkExplained(j, t, rep);
      } else {
        PhaseExplained(j, t, rep);
      }
      if Has(j, rep) { assert RecordBacked(rep, j.runs[rep], told); }
    }
  }

  // ---- One step ----

  lemma InstrWrites(s: Sys, pid: nat, instr: Instr, rest: seq<Instr>, after: After, c: Choice) returns (t: Txn)
    requires pid < |s.procs|
    ensures !t.TTerminalize? && !t.TReconcile? && !t.TAdopt? && !t.TNoRun?
    ensures var j' := DoInstr(s, pid, instr, rest, after, c).journal; j' == s.journal || j' == Commit(s.journal, t)
  {
    match instr
    case Delete(_, _) => t := TTick(0);
    case Verify(_, _) => t := TTick(0);
    case MarkRun(rep, id, storage) => t := TMarkRun(rep, id, storage);
    case MarkSource(claim, storage) => t := TMarkSource(claim, storage);
    case Finish(claim) => t := TComplete(claim);
  }

  lemma FinWrites(s: Sys, pid: nat, stage: Stage, c: Choice) returns (t: Txn)
    requires pid < |s.procs|
    ensures !t.TTerminalize? && !t.TReconcile? && !t.TAdopt? && !t.TNoRun?
    ensures var j' := FinStep(s, pid, stage, c).journal; j' == s.journal || j' == Commit(s.journal, t)
  {
    t := TBegin(Aborted, c.token);
  }

  /** A step changes the journal by one backed transaction at most. */
  lemma StepWrites(s: Sys, pid: nat, c: Choice, told: set<Fact>) returns (t: Txn)
    requires pid < |s.procs| && StageBacked(s.procs[pid], told) && Told(s, Turn(pid, c)) <= told
    ensures Step(s, pid, c).journal == s.journal || Step(s, pid, c).journal == Commit(s.journal, t)
    ensures TxnBacked(t, told) && !t.TAdopt? && !t.TNoRun?
  {
    match s.procs[pid]
    case Reserving(rep) => t := TReserve(rep);
    case Checkpointing(rep, id) => t := TCheckpoint(rep, id);
    case MarkingAmbiguous(rep) => t := TAmbiguous(rep);
    case Recording(rep, id, evidence) => t := TTerminalize(rep, id, evidence);
    case Settling(rep, run) =>
      if c.cost.Some? && run.id.Some? {
        t := TReconcile(rep, run.id.value, c.cost.value);
        assert Usage(rep, run.id.value, c.cost.value) in Told(s, Turn(pid, c));
      } else {
        t := TTick(0);
      }
    case Beginning(reason) => t := TBegin(reason, c.token);
    case Doing(todo, after) =>
      if todo == [] { t := TTick(0); } else { t := InstrWrites(s, pid, todo[0], todo[1..], after, c); }
    case Claiming => t := TClaimExpired(c.token);
    case stage => t := FinWrites(s, pid, stage, c);
  }

  lemma InstrStages(s: Sys, pid: nat, instr: Instr, rest: seq<Instr>, after: After, c: Choice)
    requires pid < |s.procs|
    ensures var s' := DoInstr(s, pid, instr, rest, after, c);
      s'.procs == s.procs[pid := s'.procs[pid]] && !s'.procs[pid].Recording?
  {}

  lemma FinStages(s: Sys, pid: nat, stage: Stage, c: Choice)
    requires pid < |s.procs|
    ensures var s' := FinStep(s, pid, stage, c);
      s' == s || (s'.procs == s.procs[pid := s'.procs[pid]] && !s'.procs[pid].Recording?)
  {}

  lemma StepStages(s: Sys, pid: nat, c: Choice, told: set<Fact>)
    requires pid < |s.procs| && Told(s, Turn(pid, c)) <= told
    ensures var s' := Step(s, pid, c);
      && s'.procs == s.procs[pid := s'.procs[pid]]
      && (s'.procs[pid] == s.procs[pid] || StageBacked(s'.procs[pid], told))
  {
    match s.procs[pid]
    case Observing(rep, id) =>
      if c.ok { assert Seen(rep, id, c.evidence) in Told(s, Turn(pid, c)); }
    case Doing(todo, after) =>
      if todo != [] { InstrStages(s, pid, todo[0], todo[1..], after, c); }
    case FinOpening => FinStages(s, pid, s.procs[pid], c);
    case FinInventory(_, _) => FinStages(s, pid, s.procs[pid], c);
    case FinResuming(_, _, _) => FinStages(s, pid, s.procs[pid], c);
    case FinReading(_, _) => FinStages(s, pid, s.procs[pid], c);
    case FinBeginning(_) => FinStages(s, pid, s.procs[pid], c);
    case _ =>
  }

  lemma NextStaysBacked(s: Sys, e: Event, told: set<Fact>)
    requires R.SysOk(s) && Enabled(s, e) && Backed(s, told)
    ensures Backed(Next(s, e), told + Told(s, e))
  {
    var more := told + Told(s, e);
    assert Backed(s, more);
    match e
    case Turn(pid, choice) =>
      var t := StepWrites(s, pid, choice, more);
      TxnStaysBacked(s.journal, t, more);
      StepStages(s, pid, choice, more);
    case Outside(txn) => TxnStaysBacked(s.journal, txn, more);
    case _ =>
  }

  lemma {:induction false} RunStaysBacked(s: Sys, events: seq<Event>, t: Sys, told: set<Fact>)
    requires R.SysOk(s) && Reaches(s, events, t) && Backed(s, told)
    ensures Backed(t, told + AllTold(s, events))
    decreases events
  {
    if events == [] {
      assert told + AllTold(s, events) == told;
    } else {
      R.NextKeeps(s, events[0]);
      NextStaysBacked(s, events[0], told);
      RunStaysBacked(Next(s, events[0]), events[1..], t, told + Told(s, events[0]));
      assert told + AllTold(s, events) == told + Told(s, events[0]) + AllTold(Next(s, events[0]), events[1..]);
    }
  }

  /** Some evidence observed of the repetition's provider run has this verdict. */
  ghost predicate Judged(rep: Rep, id: nat, verdict: RunState, told: set<Fact>) {
    exists v :: Seen(rep, id, v) in told && Verdict(v) == verdict
  }

  /** Over every run of the invocations: a repetition is recorded as succeeded or failed only if evidence
      observed of its own provider run says so; a recorded cost is one that was answered for that run, or
      zero for a repetition attested to have none. Repetition 2 exists only if evidence observed of
      repetition 1 passed the script's gate at an answered cost within the ceiling of one run. */
  lemma JournalIsObserved(now: nat, events: seq<Event>, s: Sys, rep: Rep)
    requires Reaches(Start(now), events, s) && Has(s.journal, rep)
    ensures var r, told := s.journal.runs[rep], AllTold(Start(now), events);
      && (Ended(r) ==> r.id.Some? && Judged(rep, r.id.value, r.state, told))
      && (r.cost.Some? ==>
            (r.state.NoRun? && r.cost == Some(0)) || (r.id.Some? && Usage(rep, r.id.value, r.cost.value) in told))
    ensures Has(s.journal, Second) ==>
      exists id: nat, v, cost: nat :: Seen(First, id, v) in AllTold(Start(now), events) && GatePassed(v)
        && Usage(First, id, cost) in AllTold(Start(now), events) && cost <= MAX_RUN_CHARGE
  {
    var told := AllTold(Start(now), events);
    R.ReachedOk(now, [], Start(now));
    R.ReachedOk(now, events, s);
    RunStaysBacked(Start(now), events, s, {});
    assert {} + told == told;
    var r := s.journal.runs[rep];
    assert RecordBacked(rep, r, told) && RunOk(r);
    if Has(s.journal, Second) {
      R.SecondNeedsFirst(now, events, s);
      var first := s.journal.runs[First];
      assert RecordBacked(First, first, told);
      assert Seen(First, first.id.value, first.evidence.value) in told
          && Usage(First, first.id.value, first.cost.value) in told;
    }
  }

  // ---- What an invocation cannot know ----

  /** The invocation does not know whether the repetition was started: its own start or checkpoint failed or
      lost its response, or it finds a reservation that nobody followed up. */
  predicate Unknown(s: Sys, pid: nat, c: Choice)
    requires pid < |s.procs|
  {
    match s.procs[pid]
    case Launching(_) => !c.ok || c.lost
    case Checkpointing(rep, id) => !c.ok || c.lost || !Checkpoint(s.journal, rep, id).1
    case Loading(rep) => c.ok && Has(s.journal, rep) && s.journal.runs[rep].state.Starting?
    case _ => false
  }

  predicate IsAmbiguous(j: Journal, rep: Rep) { Has(j, rep) && j.runs[rep].state.Ambiguous? }

  lemma NextTurnMarks(s: Sys, pid: nat, c: Choice, t: Sys, c': Choice)
    requires pid < |s.procs| && Unknown(s, pid, c)
    requires pid < |t.procs| && t.procs[pid] == Step(s, pid, c).procs[pid] && c'.ok
    requires Has(t.journal, s.procs[pid].rep) && t.journal.runs[s.procs[pid].rep].state.Starting?
    ensures IsAmbiguous(Step(t, pid, c').journal, s.procs[pid].rep)
  {
    assert t.procs[pid] == MarkingAmbiguous(s.procs[pid].rep);
  }

  lemma TxnKeepsAmbiguous(j: Journal, t: Txn, rep: Rep)
    requires IsAmbiguous(j, rep) && !t.TAdopt? && !t.TNoRun?
    ensures IsAmbiguous(Commit(j, t), rep)
  {}

  /** No operator has resolved the repetition. */
  predicate Unresolved(events: seq<Event>) {
    forall i :: 0 <= i < |events| ==> !(events[i].Outside? && (events[i].txn.TAdopt? || events[i].txn.TNoRun?))
  }

  lemma {:induction false} AmbiguousStays(s: Sys, events: seq<Event>, t: Sys, rep: Rep)
    requires IsAmbiguous(s.journal, rep) && Reaches(s, events, t) && Unresolved(events)
    ensures IsAmbiguous(t.journal, rep)
    decreases events
  {
    if events != [] {
      var e := events[0];
      if e.Turn? {
        var txn := AnyWrites(s, e.pid, e.choice);
        TxnKeepsAmbiguous(s.journal, txn, rep);
      } else if e.Outside? {
        TxnKeepsAmbiguous(s.journal, e.txn, rep);
      }
      AmbiguousStays(Next(s, e), events[1..], t, rep);
    }
  }

  lemma AnyWrites(s: Sys, pid: nat, c: Choice) returns (t: Txn)
    requires pid < |s.procs|
    ensures Step(s, pid, c).journal == s.journal || Step(s, pid, c).journal == Commit(s.journal, t)
    ensures !t.TAdopt? && !t.TNoRun?
  {
    var stage := s.procs[pid];
    var told := Told(s, Turn(pid, c))
                + if stage.Recording? then {Seen(stage.rep, stage.id, stage.evidence)} else {};
    t := StepWrites(s, pid, c, told);
  }

  /** Whatever happens until its next turn, that turn records a repetition still without a run as ambiguous,
      and it stays so in every later state unless an operator resolves one. */
  lemma UnknownStartIsMarked(s: Sys, pid: nat, c: Choice, t: Sys, c': Choice, after: seq<Event>, u: Sys)
    requires pid < |s.procs| && Unknown(s, pid, c)
    requires pid < |t.procs| && t.procs[pid] == Step(s, pid, c).procs[pid] && c'.ok
    requires Has(t.journal, s.procs[pid].rep) && t.journal.runs[s.procs[pid].rep].state.Starting?
    requires Reaches(Step(t, pid, c'), after, u) && Unresolved(after)
    ensures IsAmbiguous(u.journal, s.procs[pid].rep)
  {
    NextTurnMarks(s, pid, c, t, c');
    AmbiguousStays(Step(t, pid, c'), after, u, s.procs[pid].rep);
  }
}
