/** An experiment that waits for a second repetition it already has: exactly which transaction brings it
    there, that it is reachable, and that an ambiguous repetition then has one way out only. */
module CanaryReopening {
  import opened Basics
  import opened CanaryJournal

  /** The experiment waits for a second repetition although it has one. */
  predicate Reopened(j: Journal) { j.Journal? && j.phase.Awaiting? && Second in j.runs }

  /** A mark of a storage of the first repetition that comes when the second is already reserved. */
  predicate LateMark(j: Journal, t: Txn) {
    j.Journal? && j.phase.Active? && Second in j.runs
    && t.TMarkRun? && t.rep.First? && First in j.runs && j.runs[First].id == Some(t.id)
  }

  /** One transaction makes the experiment wait for the repetition it has exactly if it is a late mark. */
  lemma ReopensExactly(j: Journal, t: Txn)
    requires JournalOk(j) && !Reopened(j)
    ensures Reopened(Commit(j, t)) <==> LateMark(j, t)
  {
    if j.Journal? && Second in j.runs { assert RunOk(j.runs[First]) && Passed(j) && ALL + {Kvs} == ALL; }
    if t.TMarkRun? { MarkReopensExactly(j, t.rep, t.id, t.storage); }
  }

  lemma MarkReopensExactly(j: Journal, rep: Rep, id: nat, storage: Storage)
    requires JournalOk(j) && !Reopened(j)
    ensures Reopened(MarkRunStorage(j, rep, id, storage).0) <==> LateMark(j, TMarkRun(rep, id, storage))
  {
    if LateMark(j, TMarkRun(rep, id, storage)) {
      assert RunOk(j.runs[First]) && Passed(j);
      MarkedOk(j.runs[First], storage);
    }
  }

  function Replay(j: Journal, txns: seq<Txn>): Journal
    decreases txns
  {
    if txns == [] then j else Replay(Commit(j, txns[0]), txns[1..])
  }

  predicate Stuck(j: Journal) { Reopened(j) && j.runs[Second].state.Ambiguous? }

  lemma StuckStep(j: Journal, t: Txn)
    requires Stuck(j) && !(t.TAdopt? && t.rep.Second?)
    ensures Stuck(Commit(j, t))
  {
    if t.TBegin? { assert !Ready(j.runs[Second]); }
  }

  /** If the second repetition is then ambiguous, no sequence of transactions begins cleanup, resolves the
      repetition as never started or leaves the waiting, unless one adopts a provider run for it. */
  lemma {:induction false} StuckUntilAdopted(j: Journal, txns: seq<Txn>)
    requires Stuck(j) && forall i :: 0 <= i < |txns| ==> !(txns[i].TAdopt? && txns[i].rep.Second?)
    ensures Stuck(Replay(j, txns))
    decreases txns
  {
    if txns != [] {
      StuckStep(j, txns[0]);
      StuckUntilAdopted(Commit(j, txns[0]), txns[1..]);
    }
  }

  lemma {:induction false} ReplayOn(j: Journal, txns: seq<Txn>, t: Txn)
    ensures Replay(j, txns + [t]) == Commit(Replay(j, txns), t)
    decreases txns
  {
    if txns == [] {
      assert ([t])[1..] == [];
    } else {
      assert (txns + [t])[1..] == txns[1..] + [t];
      ReplayOn(Commit(j, txns[0]), txns[1..], t);
    }
  }

  lemma Commits(start: Journal, txns: seq<Txn>, j: Journal, t: Txn, j': Journal) returns (txns': seq<Txn>)
    requires Replay(start, txns) == j && Commit(j, t) == j'
    ensures Replay(start, txns') == j'
  {
    txns' := txns + [t];
    ReplayOn(start, txns, t);
  }

  const PERFECT := Evidence(15, 0, 0, 0, 3, 0, true, true)

  /** The first repetition, up to its settled cost. */
  function Settled(now: nat, id: nat): Run { Run(Succeeded, now, Some(id), Some(PERFECT), Some(0), {}, None, now) }

  function OneRun(now: nat, r: Run): Journal { Journal(now, Active, {}, map[First := r]) }

  lemma FirstSettles(start: Journal, id: nat) returns (txns: seq<Txn>)
    requires start.NoJournal?
    ensures Replay(start, txns) == OneRun(start.now, Settled(start.now, id))
  {
    var now, r := start.now, Reserved(start.now);
    var running := r.(state := Running, id := Some(id));
    var ended := running.(state := Succeeded, evidence := Some(PERFECT), terminalizedAt := now);
    txns := Commits(start, [], start, TReserve(First), OneRun(now, r));
    txns := Commits(start, txns, OneRun(now, r), TCheckpoint(First, id), OneRun(now, running));
    txns := Commits(start, txns, OneRun(now, running), TTerminalize(First, id, PERFECT), OneRun(now, ended));
    txns := Commits(start, txns, OneRun(now, ended), TReconcile(First, id, 0), OneRun(now, Settled(now, id)));
  }

  lemma Storages()
    ensures {} + {Kvs} == {Kvs} != ALL && {Kvs} + {Dataset} == {Kvs, Dataset} != ALL
    ensures {Kvs, Dataset} + {Queue} == ALL
  {
    assert Dataset !in {Kvs} && Queue !in {Kvs, Dataset} && Dataset in ALL && Queue in ALL;
  }

  /** Its storages are marked, the second repetition is reserved and becomes ambiguous. */
  lemma SecondIsAmbiguous(start: Journal, id: nat) returns (txns: seq<Txn>, passed: Run, second: Run)
    requires start.NoJournal?
    ensures Replay(start, txns) == Journal(start.now, Active, {}, map[First := passed, Second := second])
    ensures second.state.Ambiguous? && Ended(passed) && passed.id == Some(id) && passed.cost.Some?
    ensures passed.cleaned == ALL && passed.gate == Some(true) && DurableGate(passed)
  {
    var now, r := start.now, Settled(start.now, id);
    passed := r.(cleaned := ALL, gate := Some(true));
    second := Reserved(now).(state := Ambiguous);
    var waits := Journal(now, Awaiting(now + HOUR), {}, map[First := passed]);
    var both := Journal(now, Active, {}, map[First := passed, Second := Reserved(now)]);
    Storages();
    txns := FirstSettles(start, id);
    txns := Commits(start, txns, OneRun(now, r), TMarkRun(First, id, Kvs), OneRun(now, r.(cleaned := {Kvs})));
    txns := Commits(start, txns, OneRun(now, r.(cleaned := {Kvs})), TMarkRun(First, id, Dataset),
                 OneRun(now, r.(cleaned := {Kvs, Dataset})));
    txns := Commits(start, txns, OneRun(now, r.(cleaned := {Kvs, Dataset})), TMarkRun(First, id, Queue), waits);
    txns := Commits(start, txns, waits, TReserve(Second), both);
    txns := Commits(start, txns, both, TAmbiguous(Second), both.(runs := both.runs[Second := second]));
  }

  /** Such a state is reached from an empty journal, by one late mark. */
  lemma StuckIsReachable(start: Journal, id: nat, storage: Storage) returns (txns: seq<Txn>)
    requires start.NoJournal?
    ensures Stuck(Replay(start, txns))
  {
    var passed, second;
    txns, passed, second := SecondIsAmbiguous(start, id);
    var j := Replay(start, txns);
    assert ALL + {storage} == ALL;
    ReplayOn(start, txns, TMarkRun(First, id, storage));
    txns := txns + [TMarkRun(First, id, storage)];
  }
}
