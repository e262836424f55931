/** Where an undisturbed invocation of the repair canary ends: with every repetition it reaches recorded
    as the provider answered, and with a second repetition exactly after a passed first one. */
module RepairCompletion {
  import opened Basics
  import opened CanaryJournal
  import opened RepairCanary

  /** What the provider answers about each repetition. */
  datatype Answers = Answers(passed: Rep -> bool, cost: Rep -> nat)

  function Undisturbed(stage: Stage, a: Answers): Choice {
    Choice(true, false, stage.Calling? && a.passed(stage.rep),
           if stage.Settling? then Some(a.cost(stage.rep)) else None)
  }

  /** One invocation runs alone, every call works, and nothing is lost. */
  function Onward(pid: nat, a: Answers): Sys -> Option<Sys> {
    (s: Sys) =>
      if pid < |s.procs| && !s.procs[pid].Halted? then Some(Step(s, pid, Undisturbed(s.procs[pid], a))) else None
  }

  ghost predicate Comes(pid: nat, a: Answers, s: Sys, t: Sys) { Way(Onward(pid, a), s, t) }

  lemma Then(pid: nat, a: Answers, s: Sys, t: Sys, u: Sys)
    requires Comes(pid, a, s, t) && pid < |t.procs| && !t.procs[pid].Halted?
    requires Step(t, pid, Undisturbed(t.procs[pid], a)) == u
    ensures Comes(pid, a, s, u)
  {
    OneStep(Onward(pid, a), t, u);
    WayOn(Onward(pid, a), s, t, u);
  }

  /** The final record of a repetition: what was recorded before, and otherwise what was answered. */
  predicate Answered(before: Repairs, rep: Rep, a: Answers, r: Repair) {
    && Over(r) && r.id.Some? && r.cost.Some?
    && (r.state.Succeeded? <==>
          if rep in before && Over(before[rep]) then before[rep].state.Succeeded? else a.passed(rep))
    && r.cost == (if rep in before && before[rep].cost.Some? then before[rep].cost else Some(a.cost(rep)))
    && (rep in before && before[rep].id.Some? ==> r.id == before[rep].id)
  }

  /** No id that is yet to be issued is in use, and what is recorded can be resumed. */
  ghost predicate Resumable(s: Sys) {
    && RepairsOk(s.runs)
    && (forall rep :: rep in s.runs && s.runs[rep].id.Some? ==> s.runs[rep].id.value < s.nextRun)
    && forall rep :: rep in s.runs ==> s.runs[rep].state.Running? || Over(s.runs[rep])
  }

  ghost predicate OnlyOne(s: Sys, t: Sys, pid: nat, rep: Rep, stage: Stage) {
    && pid < |s.procs| && t.procs == s.procs[pid := stage] && s.nextRun <= t.nextRun
    && t.runs.Keys == s.runs.Keys + {rep}
    && forall other :: other in s.runs && other != rep ==> t.runs[other] == s.runs[other]
  }

  /** From the finished call on: the verdict is recorded and the cost settled. */
  lemma Finishes(pid: nat, a: Answers, s: Sys, rep: Rep, id: nat) returns (t: Sys)
    requires pid < |s.procs| && s.procs[pid] == Calling(rep, id) && a.cost(rep) <= MAX_RUN_CHARGE
    requires RepairsOk(s.runs) && rep in s.runs && s.runs[rep] == Repair(Running, Some(id), None)
    ensures var r := Repair(if a.passed(rep) then Succeeded else Failed, Some(id), Some(a.cost(rep)));
      Comes(pid, a, s, t) && t == Put(s.(runs := s.runs[rep := r]), pid, Report(rep, r))
  {
    var ended := Repair(if a.passed(rep) then Succeeded else Failed, Some(id), None);
    var r := ended.(cost := Some(a.cost(rep)));
    var recording := Put(s, pid, Recording(rep, id, a.passed(rep)));
    var settling := Put(s.(runs := s.runs[rep := ended]), pid, Settling(rep, ended));
    t := Put(s.(runs := s.runs[rep := r]), pid, Report(rep, r));
    NoStep(Onward(pid, a), s);
    Then(pid, a, s, s, recording);
    Then(pid, a, s, recording, settling);
    Then(pid, a, s, settling, t);
  }

  /** A repetition that does not exist yet is reserved, started and checkpointed. */
  lemma Launches(pid: nat, a: Answers, s: Sys, rep: Rep) returns (t: Sys)
    requires pid < |s.procs| && s.procs[pid] == Loading(rep) && rep !in s.runs && Resumable(s)
    requires rep.Second? ==> Approved(s.runs)
    ensures Comes(pid, a, s, t) && OnlyOne(s, t, pid, rep, Calling(rep, s.nextRun))
    ensures t.runs[rep] == Repair(Running, Some(s.nextRun), None) && t.nextRun == s.nextRun + 1
    ensures t.starts == s.starts + [(rep, pid)]
  {
    var reserving := Put(s, pid, Reserving(rep));
    var reserved := s.(runs := s.runs[rep := Repair(Starting, None, None)], creator := s.creator[rep := pid]);
    var launching := Put(reserved, pid, Launching(rep));
    var started := launching.(starts := s.starts + [(rep, pid)], nextRun := s.nextRun + 1);
    var checkpointing := Put(started, pid, Checkpointing(rep, s.nextRun));
    var running := reserved.runs[rep := Repair(Running, Some(s.nextRun), None)];
    t := Put(checkpointing.(runs := running), pid, Calling(rep, s.nextRun));
    NoStep(Onward(pid, a), s);
    Then(pid, a, s, s, reserving);
    Then(pid, a, s, reserving, launching);
    Then(pid, a, s, launching, checkpointing);
    Then(pid, a, s, checkpointing, t);
  }

  /** From a recorded verdict on only the cost may be missing. */
  lemma Settles(pid: nat, a: Answers, s: Sys, rep: Rep) returns (t: Sys)
    requires pid < |s.procs| && s.procs[pid] == Loading(rep) && rep in s.runs && Over(s.runs[rep])
    requires RepairsOk(s.runs) && a.cost(rep) <= MAX_RUN_CHARGE
    ensures Comes(pid, a, s, t) && rep in t.runs && OnlyOne(s, t, pid, rep, Report(rep, t.runs[rep]))
    ensures t.starts == s.starts && t.runs[rep].id == s.runs[rep].id
    ensures Answered(s.runs, rep, a, t.runs[rep])
  {
    var r := s.runs[rep];
    assert RepairOk(r);
    var settling := Put(s, pid, Settling(rep, r));
    var settled := if r.cost.Some? then r else r.(cost := Some(a.cost(rep)));
    t := Put(s.(runs := s.runs[rep := settled]), pid, Report(rep, settled));
    NoStep(Onward(pid, a), s);
    Then(pid, a, s, s, settling);
    if r.cost.Some? { assert s.runs[rep := settled] == s.runs; }
    Then(pid, a, s, settling, t);
  }

  /** However far a repetition is, the invocation brings it to its report. */
  lemma Reports(pid: nat, a: Answers, s: Sys, rep: Rep) returns (t: Sys)
    requires pid < |s.procs| && s.procs[pid] == Loading(rep) && Resumable(s) && a.cost(rep) <= MAX_RUN_CHARGE
    requires rep.Second? ==> Approved(s.runs)
    ensures Comes(pid, a, s, t) && rep in t.runs && OnlyOne(s, t, pid, rep, Report(rep, t.runs[rep]))
    ensures Answered(s.runs, rep, a, t.runs[rep]) && t.runs[rep].id.value < t.nextRun
    ensures t.starts == s.starts + if rep in s.runs then [] else [(rep, pid)]
  {
    if rep !in s.runs {
      var u := Launches(pid, a, s, rep);
      assert RepairsOk(u.runs);
      t := Finishes(pid, a, u, rep, s.nextRun);
      WayOn(Onward(pid, a), s, u, t);
    } else if Over(s.runs[rep]) {
      t := Settles(pid, a, s, rep);
    } else {
      assert RepairOk(s.runs[rep]);
      var u := Put(s, pid, Calling(rep, s.runs[rep].id.value));
      NoStep(Onward(pid, a), s);
      Then(pid, a, s, s, u);
      t := Finishes(pid, a, u, rep, s.runs[rep].id.value);
      WayOn(Onward(pid, a), s, u, t);
    }
  }

  lemma StaysResumable(s: Sys, t: Sys, pid: nat, a: Answers)
    requires Resumable(s) && First in t.runs && OnlyOne(s, t, pid, First, Loading(Second))
    requires Answered(s.runs, First, a, t.runs[First]) && a.cost(First) <= MAX_RUN_CHARGE
    requires t.runs[First].state.Succeeded? && t.runs[First].id.value < t.nextRun
    ensures Resumable(t) && Approved(t.runs)
  {
    assert First in s.runs ==> RepairOk(s.runs[First]);
    forall rep | rep in t.runs
      ensures RepairOk(t.runs[rep]) && (t.runs[rep].state.Running? || Over(t.runs[rep]))
      ensures t.runs[rep].id.Some? ==> t.runs[rep].id.value < t.nextRun
    {
      if rep.Second? { assert rep in s.runs && RepairOk(s.runs[rep]); }
    }
  }

  /** The fresh start a repetition that is recorded at the end needed. */
  function Started(before: Repairs, after: Repairs, rep: Rep, pid: nat): seq<(Rep, nat)> {
    if rep in before || rep !in after then [] else [(rep, pid)]
  }

  /** Repetition 2 follows repetition 1. */
  lemma GoesOn(pid: nat, a: Answers, s: Sys, u: Sys) returns (t: Sys)
    requires pid < |s.procs| && Resumable(s) && a.cost(First) <= MAX_RUN_CHARGE && a.cost(Second) <= MAX_RUN_CHARGE
    requires First in u.runs && OnlyOne(s, u, pid, First, Loading(Second))
    requires Answered(s.runs, First, a, u.runs[First]) && u.runs[First].state.Succeeded?
    requires u.runs[First].id.value < u.nextRun
    ensures Comes(pid, a, u, t) && t.procs == s.procs[pid := Halted]
    ensures First in t.runs && t.runs[First] == u.runs[First]
    ensures Second in t.runs && Answered(s.runs, Second, a, t.runs[Second])
    ensures t.starts == u.starts + Started(s.runs, t.runs, Second, pid)
  {
    StaysResumable(s, u, pid, a);
    t := Reports(pid, a, u, Second);
    assert t.procs == s.procs[pid := Halted];
    assert Second in s.runs <==> Second in u.runs;
  }

  /** Run alone, with every call working, from any records that can be resumed, an invocation ends with
      repetition 1 recorded, and with repetition 2 exactly if repetition 1 succeeded; each as recorded
      before, and otherwise as the provider answered. It starts exactly the repetitions that were missing. */
  lemma InvocationCompletes(pid: nat, a: Answers, s: Sys) returns (t: Sys)
    requires pid < |s.procs| && s.procs[pid] == Loading(First) && Resumable(s)
    requires a.cost(First) <= MAX_RUN_CHARGE && a.cost(Second) <= MAX_RUN_CHARGE
    ensures Comes(pid, a, s, t) && t.procs == s.procs[pid := Halted]
    ensures First in t.runs && Answered(s.runs, First, a, t.runs[First])
    ensures Second in t.runs <==> t.runs[First].state.Succeeded?
    ensures Second in t.runs ==> Answered(s.runs, Second, a, t.runs[Second])
    ensures t.starts == s.starts + Started(s.runs, t.runs, First, pid) + Started(s.runs, t.runs, Second, pid)
  {
    var u := Reports(pid, a, s, First);
    if u.runs[First].state.Succeeded? {
      t := GoesOn(pid, a, s, u);
      WayOn(Onward(pid, a), s, u, t);
    } else {
      t := u;
    }
  }
}
