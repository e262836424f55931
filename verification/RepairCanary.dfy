/** The paid profile-repair canary: two repetitions at most, each reserved, started, checkpointed,
    terminalized and settled by invocations that may stop anywhere and be run again. */
module RepairCanary {
  import opened Basics
  import opened CanaryJournal
  import C = CanaryRuns

  const MAX_TOTAL: nat := 100_000

  /** A repetition succeeds exactly when its gate passed; money is in micro-dollars. */
  datatype Repair = Repair(state: RunState, id: Option<nat>, cost: Option<nat>)

  type Repairs = map<Rep, Repair>

  predicate Over(r: Repair) { r.state.Succeeded? || r.state.Failed? }

  predicate Approved(runs: Repairs) {
    First in runs && runs[First].state.Succeeded? && runs[First].cost.Some? && runs[First].cost.value <= MAX_RUN_CHARGE
  }

  // ---- Transactions ----

  datatype Write =
    | WReserve(rep: Rep) | WCheckpoint(rep: Rep, id: nat) | WAmbiguous(rep: Rep)
    | WTerminalize(rep: Rep, id: nat, passed: bool) | WReconcile(rep: Rep, id: nat, cost: nat)

  predicate Taken(runs: Repairs, rep: Rep, id: nat) {
    exists r :: r in runs && r != rep && runs[r].id == Some(id)
  }

  function Earlier(runs: Repairs): nat {
    if First in runs && runs[First].cost.Some? then runs[First].cost.value else MAX_TOTAL + 1
  }

  /** The new records and whether the transaction was accepted; an accepted reservation is a new one
      exactly when it changes the records. */
  function Apply(runs: Repairs, w: Write): (Repairs, bool) {
    match w
    case WReserve(rep) =>
      if rep.Second? && !Approved(runs) then (runs, false)
      else if rep in runs then (runs, true)
      else (runs[rep := Repair(Starting, None, None)], true)
    case WCheckpoint(rep, id) =>
      if rep !in runs then (runs, false)
      else if runs[rep].state.Starting? then
        if Taken(runs, rep, id) then (runs, false)
        else (runs[rep := Repair(Running, Some(id), None)], true)
      else (runs, runs[rep].id == Some(id))
    case WAmbiguous(rep) =>
      if rep !in runs then (runs, false)
      else if runs[rep].state.Starting? then (runs[rep := Repair(Ambiguous, None, None)], true)
      else (runs, runs[rep].state.Ambiguous?)
    case WTerminalize(rep, id, passed) =>
      var state := if passed then Succeeded else Failed;
      if rep !in runs || runs[rep].id != Some(id) then (runs, false)
      else if Over(runs[rep]) then (runs, runs[rep].state == state)
      else if runs[rep].state.Running? then (runs[rep := runs[rep].(state := state)], true)
      else (runs, false)
    case WReconcile(rep, id, cost) =>
      if cost > MAX_RUN_CHARGE || rep !in runs || runs[rep].id != Some(id) || !Over(runs[rep]) then (runs, false)
      else if runs[rep].cost.Some? then (runs, runs[rep].cost == Some(cost))
      else if rep.Second? && Earlier(runs) + cost > MAX_TOTAL then (runs, false)
      else (runs[rep := runs[rep].(cost := Some(cost))], true)
  }

  // ---- Invocations ----

  datatype Stage =
    | Loading(rep: Rep)
    | Reserving(rep: Rep)
    | Launching(rep: Rep)
    | Checkpointing(rep: Rep, id: nat)
    | MarkingAmbiguous(rep: Rep)
    | Calling(rep: Rep, id: nat)
    | Recording(rep: Rep, id: nat, passed: bool)
    | Settling(rep: Rep, run: Repair)
    | Halted

  /** `starts` lists the fresh provider starts with the invocation that made each. */
  datatype Sys = Sys(runs: Repairs, starts: seq<(Rep, nat)>, creator: map<Rep, nat>, nextRun: nat, procs: seq<Stage>)

  /** What the outside answers: whether the effect succeeded, whether its response was lost, the
      verdict of a finished call and the stable cost, if any. */
  datatype Choice = Choice(ok: bool, lost: bool, passed: bool, cost: Option<nat>)

  datatype Event = Spawn | Turn(pid: nat, choice: Choice) | Crash(pid: nat)

  /** How an invocation goes on with a repetition that its own reservation did not create. */
  function Judge(rep: Rep, r: Repair): Stage {
    match r.state
    case Starting => MarkingAmbiguous(rep)
    case Running => if r.id.Some? then Calling(rep, r.id.value) else Halted
    case Succeeded => Settling(rep, r)
    case Failed => Settling(rep, r)
    case _ => Halted
  }

  /** After the report of a repetition: only a passed gate with actual cost leads on to the second. */
  function Report(rep: Rep, r: Repair): Stage {
    if rep.First? && r.state.Succeeded? && r.cost.Some? then Loading(Second) else Halted
  }

  function Put(s: Sys, pid: nat, stage: Stage): Sys
    requires pid < |s.procs|
  {
    s.(procs := s.procs[pid := stage])
  }

  function Step(s: Sys, pid: nat, c: Choice): Sys
    requires pid < |s.procs|
  {
    match s.procs[pid]
    case Loading(rep) =>
      Put(s, pid, if !c.ok then Halted else if rep in s.runs then Judge(rep, s.runs[rep]) else Reserving(rep))
    case Reserving(rep) =>
      var (runs, done) := Apply(s.runs, WReserve(rep));
      if !c.ok || !done then Put(s, pid, Halted)
      else if rep in s.runs then Put(s, pid, if c.lost then Halted else Judge(rep, s.runs[rep]))
      else Put(s.(runs := runs, creator := s.creator[rep := pid]), pid, if c.lost then Halted else Launching(rep))
    case Launching(rep) =>
      if !c.ok then Put(s, pid, MarkingAmbiguous(rep))
      else
        Put(s.(starts := s.starts + [(rep, pid)], nextRun := s.nextRun + 1), pid,
            if c.lost then MarkingAmbiguous(rep) else Checkpointing(rep, s.nextRun))
    case Checkpointing(rep, id) =>
      var (runs, done) := Apply(s.runs, WCheckpoint(rep, id));
      if !c.ok then Put(s, pid, MarkingAmbiguous(rep))
      else Put(s.(runs := runs), pid, if done && !c.lost then Calling(rep, id) else MarkingAmbiguous(rep))
    case MarkingAmbiguous(rep) =>
      Put(if c.ok then s.(runs := Apply(s.runs, WAmbiguous(rep)).0) else s, pid, Halted)
    case Calling(rep, id) => Put(s, pid, if c.ok then Recording(rep, id, c.passed) else Halted)
    case Recording(rep, id, passed) =>
      var (runs, done) := Apply(s.runs, WTerminalize(rep, id, passed));
      if !c.ok then Put(s, pid, Halted)
      else Put(s.(runs := runs), pid, if done && !c.lost && rep in runs then Settling(rep, runs[rep]) else Halted)
    case Settling(rep, run) =>
      if run.cost.Some? || c.cost.None? || run.id.None? then Put(s, pid, Report(rep, run))
      else
        var (runs, done) := Apply(s.runs, WReconcile(rep, run.id.value, c.cost.value));
        if !c.ok then Put(s, pid, Halted)
        else Put(s.(runs := runs), pid, if done && !c.lost && rep in runs then Report(rep, runs[rep]) else Halted)
    case Halted => s
  }

  predicate Enabled(s: Sys, e: Event) { e.Spawn? || e.pid < |s.procs| }

  function Next(s: Sys, e: Event): Sys
    requires Enabled(s, e)
  {
    match e
    case Spawn => s.(procs := s.procs + [Loading(First)])
    case Turn(pid, choice) => Step(s, pid, choice)
    case Crash(pid) => Put(s, pid, Halted)
  }

  ghost predicate Reaches(s: Sys, events: seq<Event>, t: Sys)
    decreases events
  {
    if events == [] then t == s
    else Enabled(s, events[0]) && Reaches(Next(s, events[0]), events[1..], t)
  }

  const START := Sys(map[], [], map[], 0, [])

  // ---- Invariants ----

  predicate RepairOk(r: Repair) {
    && (r.state.Starting? || r.state.Ambiguous? ==> r.id.None? && r.cost.None?)
    && (r.state.Running? ==> r.id.Some? && r.cost.None?)
    && (Over(r) ==> r.id.Some?) && !r.state.NoRun?
    && (r.cost.Some? ==> r.cost.value <= MAX_RUN_CHARGE)
  }

  ghost predicate RepairsOk(runs: Repairs) {
    && (forall rep :: rep in runs ==> RepairOk(runs[rep]))
    && (Second in runs ==> Approved(runs))
  }

  predicate RepairGrew(r: Repair, r': Repair) {
    && (r.id.Some? ==> r'.id == r.id) && (r.cost.Some? ==> r'.cost == r.cost)
    && (Over(r) || r.state.Ambiguous? ==> r'.state == r.state)
  }

  ghost predicate Grew(runs: Repairs, runs': Repairs) {
    forall rep :: rep in runs ==> rep in runs' && RepairGrew(runs[rep], runs'[rep])
  }

  lemma ApplyOk(runs: Repairs, w: Write)
    requires RepairsOk(runs)
    ensures RepairsOk(Apply(runs, w).0) && Grew(runs, Apply(runs, w).0)
    ensures Apply(runs, w).0.Keys == runs.Keys + if w.WReserve? && Apply(runs, w).1 then {w.rep} else {}
  {}

  /** Whatever the records hold: a cost of repetition 2 is only recorded next to one of repetition 1, with the
      two within 0.10 together, and a run id only if no other repetition has it. */
  lemma WritesAreGuarded(runs: Repairs, w: Write)
    ensures var runs' := Apply(runs, w).0;
      && (w.WReconcile? && w.rep.Second? && runs' != runs ==>
            First in runs && runs[First].cost.Some? && runs[First].cost.value + w.cost <= 100_000)
      && (w.WCheckpoint? && runs' != runs ==>
            forall rep :: rep in runs && rep != w.rep ==> runs[rep].id != Some(w.id))
  {}

  ghost predicate StageOk(s: Sys, pid: nat, stage: Stage) {
    match stage
    case Launching(rep) => rep in s.creator && s.creator[rep] == pid && C.NoStart(s.starts, rep)
    case Calling(rep, id) => rep in s.runs && s.runs[rep].id == Some(id)
    case Recording(rep, id, _) => rep in s.runs && s.runs[rep].id == Some(id)
    case Settling(rep, run) => rep in s.runs && RepairGrew(run, s.runs[rep]) && Over(run) && run.id.Some?
    case _ => true
  }

  ghost predicate WorldOk(s: Sys) {
    RepairsOk(s.runs) && s.creator.Keys == s.runs.Keys && C.StartsOk(s.starts, s.creator)
  }

  ghost predicate SysOk(s: Sys) {
    WorldOk(s) && forall pid :: 0 <= pid < |s.procs| ==> StageOk(s, pid, s.procs[pid])
  }

  /** What a step may change, as far as another invocation is concerned. */
  ghost predicate Later(s: Sys, s': Sys, pid: nat) {
    && Grew(s.runs, s'.runs)
    && (forall rep :: rep in s.creator ==> rep in s'.creator && s'.creator[rep] == s.creator[rep])
    && (forall rep :: rep in s.creator && s.creator[rep] == pid && C.NoStart(s.starts, rep) ==>
          C.NoStart(s'.starts, rep))
  }

  lemma StageStays(s: Sys, s': Sys, pid: nat, stage: Stage)
    requires StageOk(s, pid, stage) && Later(s, s', pid)
    ensures StageOk(s', pid, stage)
  {
    if stage.Calling? || stage.Recording? || stage.Settling? {
      assert RepairGrew(s.runs[stage.rep], s'.runs[stage.rep]);
    }
  }

  ghost predicate StepOk(s: Sys, s': Sys, pid: nat) {
    && |s'.procs| == |s.procs| && pid < |s.procs| && s'.procs == s.procs[pid := s'.procs[pid]]
    && WorldOk(s') && StageOk(s', pid, s'.procs[pid])
    && forall other :: other != pid ==> Later(s, s', other)
  }

  /** A step whose durable effect is one write to an existing repetition, or none. */
  lemma WriteOk(s: Sys, w: Write, runs: Repairs, pid: nat, stage: Stage)
    requires WorldOk(s) && pid < |s.procs| && !w.WReserve?
    requires runs == s.runs || runs == Apply(s.runs, w).0
    requires StageOk(s.(runs := runs), pid, stage)
    ensures StepOk(s, Put(s.(runs := runs), pid, stage), pid)
  {
    ApplyOk(s.runs, w);
  }

  lemma ReservingOk(s: Sys, pid: nat, c: Choice)
    requires WorldOk(s) && pid < |s.procs| && s.procs[pid].Reserving?
    ensures StepOk(s, Step(s, pid, c), pid)
  {
    var rep := s.procs[pid].rep;
    ApplyOk(s.runs, WReserve(rep));
    assert rep !in s.runs ==> C.NoStart(s.starts, rep);
    if rep in s.runs { assert RepairOk(s.runs[rep]); }
  }

  lemma LaunchingOk(s: Sys, pid: nat, c: Choice)
    requires WorldOk(s) && pid < |s.procs| && s.procs[pid].Launching? && StageOk(s, pid, s.procs[pid])
    ensures StepOk(s, Step(s, pid, c), pid)
  {}

  lemma StepIsOk(s: Sys, pid: nat, c: Choice)
    requires WorldOk(s) && pid < |s.procs| && StageOk(s, pid, s.procs[pid])
    ensures StepOk(s, Step(s, pid, c), pid)
  {
    var s' := Step(s, pid, c);
    match s.procs[pid]
    case Reserving(_) => ReservingOk(s, pid, c);
    case Launching(_) => LaunchingOk(s, pid, c);
    case Loading(rep) =>
      if rep in s.runs { assert RepairOk(s.runs[rep]); }
      WriteOk(s, WAmbiguous(rep), s.runs, pid, s'.procs[pid]);
    case Checkpointing(rep, id) => WriteOk(s, WCheckpoint(rep, id), s'.runs, pid, s'.procs[pid]);
    case MarkingAmbiguous(rep) => WriteOk(s, WAmbiguous(rep), s'.runs, pid, Halted);
    case Calling(rep, id) => WriteOk(s, WAmbiguous(rep), s.runs, pid, s'.procs[pid]);
    case Recording(rep, id, passed) => WriteOk(s, WTerminalize(rep, id, passed), s'.runs, pid, s'.procs[pid]);
    case Settling(rep, run) =>
      var cost := if c.cost.Some? then c.cost.value else 0;
      WriteOk(s, WReconcile(rep, run.id.value, cost), s'.runs, pid, s'.procs[pid]);
    case Halted => WriteOk(s, WAmbiguous(First), s.runs, pid, Halted);
  }

  lemma NextKeeps(s: Sys, e: Event)
    requires SysOk(s) && Enabled(s, e)
    ensures SysOk(Next(s, e))
  {
    var s' := Next(s, e);
    if e.Turn? { StepIsOk(s, e.pid, e.choice); }
    forall pid | 0 <= pid < |s'.procs| ensures StageOk(s', pid, s'.procs[pid]) {
      if pid < |s.procs| && s'.procs[pid] == s.procs[pid] && !(e.Turn? && e.pid == pid) {
        StageStays(s, s', pid, s.procs[pid]);
      }
    }
  }

  lemma NextGrows(s: Sys, e: Event)
    requires SysOk(s) && Enabled(s, e)
    ensures Grew(s.runs, Next(s, e).runs)
  {
    if e.Turn? {
      StepIsOk(s, e.pid, e.choice);
      assert Later(s, Step(s, e.pid, e.choice), e.pid + 1);
    }
  }

  /** Every run keeps the invariants, and recorded run ids, verdicts and costs never change. */
  lemma {:induction false} RunKeeps(s: Sys, events: seq<Event>, t: Sys)
    requires SysOk(s) && Reaches(s, events, t)
    ensures SysOk(t) && Grew(s.runs, t.runs)
    decreases events
  {
    if events != [] {
      var n := Next(s, events[0]);
      NextKeeps(s, events[0]);
      NextGrows(s, events[0]);
      RunKeeps(n, events[1..], t);
      forall rep | rep in s.runs ensures rep in t.runs && RepairGrew(s.runs[rep], t.runs[rep]) {
        assert RepairGrew(s.runs[rep], n.runs[rep]) && RepairGrew(n.runs[rep], t.runs[rep]);
      }
    }
  }

  /** Each repetition is started afresh at most once, by the invocation whose reservation was newly
      created; at most two runs are started, and both the charge they authorise and the actual cost
      recorded for them stay within 0.10. */
  lemma StartsOnce(events: seq<Event>, s: Sys)
    requires Reaches(START, events, s)
    ensures forall i, k :: 0 <= i < k < |s.starts| ==> s.starts[i].0 != s.starts[k].0
    ensures forall i :: 0 <= i < |s.starts| ==> s.starts[i].0 in s.creator && s.creator[s.starts[i].0] == s.starts[i].1
    ensures |s.starts| <= 2 && |s.starts| * MAX_RUN_CHARGE <= MAX_TOTAL
    ensures First in s.runs && Second in s.runs && s.runs[Second].cost.Some? ==>
      s.runs[First].cost.Some? && s.runs[First].cost.value + s.runs[Second].cost.value <= MAX_TOTAL
  {
    RunKeeps(START, events, s);
    C.Pigeonhole(s.starts);
  }

  /** An invocation about to start a repetition is its creator and nobody has started it; any other
      provider call resumes the run the journal names; repetition 2 exists only after repetition 1
      succeeded with settled cost within the ceiling of one run. */
  lemma OnlyResumes(events: seq<Event>, s: Sys, pid: nat)
    requires Reaches(START, events, s) && pid < |s.procs|
    ensures var stage := s.procs[pid];
      && (stage.Launching? ==>
            stage.rep in s.creator && s.creator[stage.rep] == pid && C.NoStart(s.starts, stage.rep))
      && (stage.Calling? || stage.Recording? ==>
            stage.rep in s.runs && s.runs[stage.rep].id == Some(stage.id))
    ensures Second in s.runs ==> Approved(s.runs)
  {
    RunKeeps(START, events, s);
    assert StageOk(s, pid, s.procs[pid]);
  }

  /** The invocation does not know whether the repetition was started: its own start or checkpoint failed or
      lost its response, or it finds a reservation that nobody followed up. */
  predicate Unknown(s: Sys, pid: nat, c: Choice)
    requires pid < |s.procs|
  {
    match s.procs[pid]
    case Launching(_) => !c.ok || c.lost
    case Checkpointing(rep, id) => !c.ok || c.lost || !Apply(s.runs, WCheckpoint(rep, id)).1
    case Loading(rep) => c.ok && rep in s.runs && s.runs[rep].state.Starting?
    case _ => false
  }

  lemma NextTurnMarks(s: Sys, pid: nat, c: Choice, t: Sys, c': Choice)
    requires pid < |s.procs| && Unknown(s, pid, c)
    requires pid < |t.procs| && t.procs[pid] == Step(s, pid, c).procs[pid] && c'.ok
    requires s.procs[pid].rep in t.runs && t.runs[s.procs[pid].rep].state.Starting?
    ensures Step(t, pid, c').runs == t.runs[s.procs[pid].rep := Repair(Ambiguous, None, None)]
  {
    assert t.procs[pid] == MarkingAmbiguous(s.procs[pid].rep);
  }

  /** Then, whatever happens until its next turn, that turn records a repetition still without a run as
      ambiguous, and in no later state is it anything else. */
  lemma UnknownStartIsMarked(s: Sys, pid: nat, c: Choice, before: seq<Event>, t: Sys, c': Choice,
                             after: seq<Event>, u: Sys)
    requires pid < |s.procs| && Unknown(s, pid, c)
    requires pid < |t.procs| && t.procs[pid] == Step(s, pid, c).procs[pid] && c'.ok
    requires Reaches(START, before, t) && Reaches(Step(t, pid, c'), after, u)
    requires s.procs[pid].rep in t.runs && t.runs[s.procs[pid].rep].state.Starting?
    ensures s.procs[pid].rep in u.runs && u.runs[s.procs[pid].rep].state.Ambiguous?
  {
    var rep, marked := s.procs[pid].rep, Next(t, Turn(pid, c'));
    NextTurnMarks(s, pid, c, t, c');
    RunKeeps(START, before, t);
    NextKeeps(t, Turn(pid, c'));
    RunKeeps(marked, after, u);
    assert RepairGrew(marked.runs[rep], u.runs[rep]);
  }

  // ---- What was observed ----

  /** What a step was told: the verdict of a finished call, and a stable cost, of a provider run. */
  datatype Fact = Gate(rep: Rep, id: nat, passed: bool) | Usage(rep: Rep, id: nat, cost: nat)

  function Told(s: Sys, e: Event): set<Fact>
    requires Enabled(s, e)
  {
    if !e.Turn? then {}
    else
      match s.procs[e.pid]
      case Calling(rep, id) => if e.choice.ok then {Gate(rep, id, e.choice.passed)} else {}
      case Settling(rep, run) =>
        if e.choice.cost.Some? && run.id.Some? then {Usage(rep, run.id.value, e.choice.cost.value)} else {}
      case _ => {}
  }

  /** Everything the invocations of a run were told. */
  ghost function AllTold(s: Sys, events: seq<Event>): set<Fact>
    decreases events
  {
    if events == [] || !Enabled(s, events[0]) then {}
    else Told(s, events[0]) + AllTold(Next(s, events[0]), events[1..])
  }

  /** The record says nothing that was not observed of its own provider run. */
  predicate RecordBacked(rep: Rep, r: Repair, told: set<Fact>) {
    && (Over(r) ==> r.id.Some? && Gate(rep, r.id.value, r.state.Succeeded?) in told)
    && (r.cost.Some? ==> r.id.Some? && Usage(rep, r.id.value, r.cost.value) in told)
  }

  ghost predicate RecordsBacked(runs: Repairs, told: set<Fact>) {
    forall rep :: rep in runs ==> RecordBacked(rep, runs[rep], told)
  }

  predicate StageBacked(stage: Stage, told: set<Fact>) {
    stage.Recording? ==> Gate(stage.rep, stage.id, stage.passed) in told
  }

  ghost predicate Backed(s: Sys, told: set<Fact>) {
    RecordsBacked(s.runs, told) && forall pid :: 0 <= pid < |s.procs| ==> StageBacked(s.procs[pid], told)
  }

  /** What a write must rest on. */
  predicate WriteBacked(w: Write, told: set<Fact>) {
    && (w.WTerminalize? ==> Gate(w.rep, w.id, w.passed) in told)
    && (w.WReconcile? ==> Usage(w.rep, w.id, w.cost) in told)
  }

  lemma WriteStaysBacked(runs: Repairs, w: Write, told: set<Fact>)
    requires RepairsOk(runs) && WriteBacked(w, told) && RecordsBacked(runs, told)
    ensures RecordsBacked(Apply(runs, w).0, told)
  {
    var runs' := Apply(runs, w).0;
    forall rep | rep in runs' ensures RecordBacked(rep, runs'[rep], told) {
      if rep in runs { assert RecordBacked(rep, runs[rep], told) && RepairOk(runs[rep]); }
    }
  }

  /** A step changes the records by one backed write at most. */
  lemma StepWrites(s: Sys, pid: nat, c: Choice, told: set<Fact>) returns (w: Write)
    requires pid < |s.procs| && StageBacked(s.procs[pid], told) && Told(s, Turn(pid, c)) <= told
    ensures Step(s, pid, c).runs == s.runs || Step(s, pid, c).runs == Apply(s.runs, w).0
    ensures WriteBacked(w, told)
  {
    match s.procs[pid]
    case Reserving(rep) => w := WReserve(rep);
    case Checkpointing(rep, id) => w := WCheckpoint(rep, id);
    case Recording(rep, id, passed) => w := WTerminalize(rep, id, passed);
    case Settling(rep, run) =>
      if c.cost.Some? && run.id.Some? {
        w := WReconcile(rep, run.id.value, c.cost.value);
        assert Usage(rep, run.id.value, c.cost.value) in Told(s, Turn(pid, c));
      } else {
        w := WAmbiguous(rep);
      }
    case MarkingAmbiguous(rep) => w := WAmbiguous(rep);
    case _ => w := WAmbiguous(First);
  }

  lemma StepStages(s: Sys, pid: nat, c: Choice, told: set<Fact>)
    requires pid < |s.procs| && Told(s, Turn(pid, c)) <= told
    ensures var s' := Step(s, pid, c);
      && s'.procs == s.procs[pid := s'.procs[pid]]
      && (s'.procs[pid] == s.procs[pid] || StageBacked(s'.procs[pid], told))
  {
    match s.procs[pid]
    case Calling(rep, id) =>
      if c.ok { assert Gate(rep, id, c.passed) in Told(s, Turn(pid, c)); }
    case _ =>
  }

  lemma NextStaysBacked(s: Sys, e: Event, told: set<Fact>)
    requires SysOk(s) && Enabled(s, e) && Backed(s, told)
    ensures Backed(Next(s, e), told + Told(s, e))
  {
    var more := told + Told(s, e);
    assert Backed(s, more);
    if e.Turn? {
      var w := StepWrites(s, e.pid, e.choice, more);
      WriteStaysBacked(s.runs, w, more);
      StepStages(s, e.pid, e.choice, more);
    }
  }

  lemma {:induction false} RunStaysBacked(s: Sys, events: seq<Event>, t: Sys, told: set<Fact>)
    requires SysOk(s) && Reaches(s, events, t) && Backed(s, told)
    ensures Backed(t, told + AllTold(s, events))
    decreases events
  {
    if events == [] {
      assert told + AllTold(s, events) == told;
    } else {
      NextKeeps(s, events[0]);
      NextStaysBacked(s, events[0], told);
      RunStaysBacked(Next(s, events[0]), events[1..], t, told + Told(s, events[0]));
      assert told + AllTold(s, events) == told + Told(s, events[0]) + AllTold(Next(s, events[0]), events[1..]);
    }
  }

  /** A repetition is recorded as succeeded only if a finished call of its own provider run was found to
      pass its gate, as failed only if one was found not to; a recorded cost is one that was answered for
      that run. Repetition 2 exists only if the observed gate of repetition 1 passed, at an answered cost
      within the ceiling of one run. */
  lemma RecordsAreObserved(events: seq<Event>, s: Sys, rep: Rep)
    requires Reaches(START, events, s) && rep in s.runs
    ensures var r, told := s.runs[rep], AllTold(START, events);
      && (r.state.Succeeded? ==> r.id.Some? && Gate(rep, r.id.value, true) in told)
      && (r.state.Failed? ==> r.id.Some? && Gate(rep, r.id.value, false) in told)
      && (r.cost.Some? ==> r.id.Some? && Usage(rep, r.id.value, r.cost.value) in told)
    ensures Second in s.runs ==>
      exists id: nat, cost: nat :: Gate(First, id, true) in AllTold(START, events)
        && Usage(First, id, cost) in AllTold(START, events) && cost <= MAX_RUN_CHARGE
  {
    var told := AllTold(START, events);
    RunKeeps(START, events, s);
    RunStaysBacked(START, events, s, {});
    assert {} + told == told;
    assert RecordBacked(rep, s.runs[rep], told);
    if Second in s.runs {
      var r := s.runs[First];
      assert RecordBacked(First, r, told);
      assert Gate(First, r.id.value, true) in told && Usage(First, r.id.value, r.cost.value) in told;
    }
  }
}
