/** What the effects of a completed cleanup are, stated on their list alone: every storage that was left
    is deleted, verified and marked in that order, nothing else is touched, and the end comes last. */
module CanaryEffects {
  import opened CanaryJournal
  import opened CanaryProcesses

  // ---- On the list of effects ----

  predicate AttemptAt(log: seq<Instr>, k: nat, id: nat, storage: Storage) {
    k + 1 < |log| && log[k] == Delete(id, storage) && log[k + 1] == Verify(id, storage)
  }

  /** The storage of a canary run is deleted, verified and marked. */
  predicate RunWiped(log: seq<Instr>, rep: Rep, id: nat, storage: Storage) {
    exists k: nat :: k < |log| && AttemptAt(log, k, id, storage)
      && k + 2 < |log| && log[k + 2] == MarkRun(rep, id, storage)
  }

  predicate AttemptBefore(log: seq<Instr>, m: nat, id: nat, storage: Storage) {
    m <= |log| && exists k: nat :: k + 1 < m && AttemptAt(log, k, id, storage)
  }

  /** One storage kind of every source run is deleted and verified before it is marked. */
  predicate SourceWiped(log: seq<Instr>, storage: Storage, claim: nat) {
    exists m: nat :: m < |log| && log[m] == MarkSource(claim, storage)
      && forall n: nat :: n < SOURCES ==> AttemptBefore(log, m, n, storage)
  }

  /** The effect is part of cleaning something the context shows as unclean, or the end. */
  predicate Wanted(c: Context, claim: nat, effect: Instr) {
    match effect
    case Delete(id, storage) => UncleanRun(c, id, storage) || (id < SOURCES && storage !in c.sourceCleaned)
    case Verify(id, storage) => UncleanRun(c, id, storage) || (id < SOURCES && storage !in c.sourceCleaned)
    case MarkRun(rep, id, storage) =>
      exists i :: 0 <= i < |c.canaries| && c.canaries[i].rep == rep && c.canaries[i].id == id
                  && storage !in c.canaries[i].cleaned
    case MarkSource(token, storage) => token == claim && storage !in c.sourceCleaned
    case Finish(token) => token == claim
  }

  predicate UncleanRun(c: Context, id: nat, storage: Storage) {
    exists i :: 0 <= i < |c.canaries| && c.canaries[i].id == id && storage !in c.canaries[i].cleaned
  }

  ghost predicate CleansAll(log: seq<Instr>, c: Context, claim: nat) {
    && (forall i, storage :: 0 <= i < |c.canaries| && storage !in c.canaries[i].cleaned ==>
          RunWiped(log, c.canaries[i].rep, c.canaries[i].id, storage))
    && (forall storage :: storage !in c.sourceCleaned ==> SourceWiped(log, storage, claim))
    && |log| > 0 && log[|log| - 1] == Finish(claim)
    && (forall k :: 0 <= k < |log| ==> Wanted(c, claim, log[k]))
  }

  /** How many of the effects are verifications. */
  function Verifications(log: seq<Instr>): nat {
    if log == [] then 0
    else Verifications(log[..|log| - 1]) + if log[|log| - 1].Verify? then 1 else 0
  }

  // ---- Parts of a list ----

  ghost predicate Contains(log: seq<Instr>, part: seq<Instr>) {
    exists before, after :: log == before + part + after
  }

  lemma ContainsOn(log: seq<Instr>, part: seq<Instr>, piece: seq<Instr>)
    requires Contains(log, part) && Contains(part, piece)
    ensures Contains(log, piece)
  {
    var before, after :| log == before + part + after;
    var first, last :| part == first + piece + last;
    assert log == (before + first) + piece + (last + after);
  }

  lemma ContainsRight(before: seq<Instr>, part: seq<Instr>)
    ensures Contains(before + part, part)
  {
    assert before + part == before + part + [];
  }

  lemma ContainsLeft(part: seq<Instr>, after: seq<Instr>)
    ensures Contains(part + after, part)
  {
    assert part + after == [] + part + after;
  }

  lemma WipesInside(log: seq<Instr>, rep: Rep, id: nat, storage: Storage)
    requires Contains(log, WipeRun(rep, id, storage))
    ensures RunWiped(log, rep, id, storage)
  {
    var before, after :| log == before + WipeRun(rep, id, storage) + after;
    var k := |before|;
    assert log[k] == Delete(id, storage) && log[k + 1] == Verify(id, storage);
    assert log[k + 2] == MarkRun(rep, id, storage);
    assert AttemptAt(log, k, id, storage);
  }

  lemma {:induction false} WipesEach(n: nat, m: nat, storage: Storage) returns (k: nat)
    requires n <= m < SOURCES
    ensures k + 1 < |WipeSources(n, storage)| && AttemptAt(WipeSources(n, storage), k, m, storage)
    decreases m - n
  {
    if n == m {
      k := 0;
    } else {
      k := WipesEach(n + 1, m, storage);
      var rest := WipeSources(n + 1, storage);
      assert WipeSources(n, storage) == [Delete(n, storage), Verify(n, storage)] + rest;
      k := k + 2;
    }
  }

  lemma SourceInside(log: seq<Instr>, storage: Storage, claim: nat, from: nat)
    requires from == 0 && Contains(log, WipeSources(from, storage) + [MarkSource(claim, storage)])
    ensures SourceWiped(log, storage, claim)
  {
    var wipes := WipeSources(from, storage);
    var before, after :| log == before + (wipes + [MarkSource(claim, storage)]) + after;
    var m := |before| + |wipes|;
    assert log[m] == MarkSource(claim, storage);
    forall n: nat | n < SOURCES ensures AttemptBefore(log, m, n, storage) {
      var k := WipesEach(from, n, storage);
      assert log[|before| + k] == wipes[k] && log[|before| + k + 1] == wipes[k + 1];
      assert AttemptAt(log, |before| + k, n, storage);
    }
  }

  // ---- The programs contain their parts ----

  lemma {:induction false} RunProgramContains(ref: CanaryRef, storages: seq<Storage>, k: nat)
    requires k < |storages|
    ensures Contains(RunProgram(ref, storages), RunPart(ref, storages[k]))
    decreases k
  {
    if k == 0 {
      ContainsLeft(RunPart(ref, storages[0]), RunProgram(ref, storages[1..]));
    } else {
      RunProgramContains(ref, storages[1..], k - 1);
      ContainsRight(RunPart(ref, storages[0]), RunProgram(ref, storages[1..]));
      ContainsOn(RunProgram(ref, storages), RunProgram(ref, storages[1..]), RunPart(ref, storages[k]));
    }
  }

  lemma {:induction false} RunsProgramContains(refs: seq<CanaryRef>, i: nat)
    requires i < |refs|
    ensures Contains(RunsProgram(refs), RunProgram(refs[i], STORAGES))
    decreases i
  {
    if i == 0 {
      ContainsLeft(RunProgram(refs[0], STORAGES), RunsProgram(refs[1..]));
    } else {
      RunsProgramContains(refs[1..], i - 1);
      ContainsRight(RunProgram(refs[0], STORAGES), RunsProgram(refs[1..]));
      ContainsOn(RunsProgram(refs), RunsProgram(refs[1..]), RunProgram(refs[i], STORAGES));
    }
  }

  lemma {:induction false} SourceProgramContains(storages: seq<Storage>, skip: set<Storage>, claim: nat, k: nat)
    requires k < |storages|
    ensures Contains(SourceProgram(storages, skip, claim), SourcePart(storages[k], skip, claim))
    decreases k
  {
    var first, rest := SourcePart(storages[0], skip, claim), SourceProgram(storages[1..], skip, claim);
    if k == 0 {
      ContainsLeft(first, rest);
    } else {
      SourceProgramContains(storages[1..], skip, claim, k - 1);
      ContainsRight(first, rest);
      ContainsOn(SourceProgram(storages, skip, claim), rest, SourcePart(storages[k], skip, claim));
    }
  }

  function Place(storage: Storage): (k: nat)
    ensures k < |STORAGES| && STORAGES[k] == storage
  {
    match storage case Kvs => 0 case Dataset => 1 case Queue => 2
  }

  // ---- The programs do nothing else ----

  ghost predicate AllWanted(c: Context, claim: nat, log: seq<Instr>) {
    forall k :: 0 <= k < |log| ==> Wanted(c, claim, log[k])
  }

  lemma {:induction false} WipeSourcesWanted(c: Context, claim: nat, n: nat, storage: Storage)
    requires storage !in c.sourceCleaned
    ensures AllWanted(c, claim, WipeSources(n, storage))
    decreases SOURCES - n
  {
    if n < SOURCES { WipeSourcesWanted(c, claim, n + 1, storage); }
  }

  lemma SourcePartWanted(c: Context, claim: nat, storage: Storage, skip: set<Storage>, from: nat)
    requires c.sourceCleaned <= skip && from == 0
    ensures AllWanted(c, claim, if storage in skip then []
                                else WipeSources(from, storage) + [MarkSource(claim, storage)])
  {
    if storage !in skip { WipeSourcesWanted(c, claim, from, storage); }
  }

  lemma {:induction false} SourceProgramWanted(c: Context, claim: nat, storages: seq<Storage>, skip: set<Storage>)
    requires c.sourceCleaned <= skip
    ensures AllWanted(c, claim, SourceProgram(storages, skip, claim))
    decreases storages
  {
    if storages != [] {
      SourcePartWanted(c, claim, storages[0], skip, 0);
      SourceProgramWanted(c, claim, storages[1..], skip);
    }
  }

  lemma {:induction false} RunProgramWanted(c: Context, claim: nat, i: nat, storages: seq<Storage>)
    requires i < |c.canaries|
    ensures AllWanted(c, claim, RunProgram(c.canaries[i], storages))
    decreases storages
  {
    if storages != [] {
      var ref := c.canaries[i];
      RunProgramWanted(c, claim, i, storages[1..]);
      if storages[0] !in ref.cleaned { assert UncleanRun(c, ref.id, storages[0]); }
    }
  }

  lemma {:induction false} RunsProgramWanted(c: Context, claim: nat, i: nat)
    requires i <= |c.canaries|
    ensures AllWanted(c, claim, RunsProgram(c.canaries[i..]))
    decreases |c.canaries| - i
  {
    if i < |c.canaries| {
      RunProgramWanted(c, claim, i, STORAGES);
      RunsProgramWanted(c, claim, i + 1);
      assert c.canaries[i..][1..] == c.canaries[i + 1..];
    }
  }

  // ---- So the programs are complete ----

  lemma PartsComplete(log: seq<Instr>, c: Context, claim: nat)
    requires Contains(log, RunsProgram(c.canaries)) && Contains(log, SourceProgram(STORAGES, c.sourceCleaned, claim))
    requires |log| > 0 && log[|log| - 1] == Finish(claim) && AllWanted(c, claim, log)
    ensures CleansAll(log, c, claim)
  {
    forall i, storage | 0 <= i < |c.canaries| && storage !in c.canaries[i].cleaned
      ensures RunWiped(log, c.canaries[i].rep, c.canaries[i].id, storage)
    {
      var ref := c.canaries[i];
      RunsProgramContains(c.canaries, i);
      RunProgramContains(ref, STORAGES, Place(storage));
      ContainsOn(log, RunsProgram(c.canaries), RunProgram(ref, STORAGES));
      ContainsOn(log, RunProgram(ref, STORAGES), RunPart(ref, storage));
      WipesInside(log, ref.rep, ref.id, storage);
    }
    forall storage | storage !in c.sourceCleaned ensures SourceWiped(log, storage, claim) {
      SourceProgramContains(STORAGES, c.sourceCleaned, claim, Place(storage));
      ContainsOn(log, SourceProgram(STORAGES, c.sourceCleaned, claim), SourcePart(storage, c.sourceCleaned, claim));
      SourceInside(log, storage, claim, 0);
    }
  }

  lemma TwoParts(first: seq<Instr>, second: seq<Instr>, claim: nat)
    ensures var log := first + second + [Finish(claim)];
      Contains(log, first) && Contains(log, second) && log[|log| - 1] == Finish(claim)
  {
    assert first + second + [Finish(claim)] == [] + first + (second + [Finish(claim)]);
    assert first + second + [Finish(claim)] == first + second + [Finish(claim)];
  }

  lemma RunsWanted(c: Context, claim: nat)
    ensures AllWanted(c, claim, RunsProgram(c.canaries))
  {
    assert c.canaries[0..] == c.canaries;
    RunsProgramWanted(c, claim, 0);
  }

  lemma FinaliserIsComplete(c: Context, claim: nat)
    ensures CleansAll(FinaliserProgram(c, claim), c, claim)
  {
    TwoParts(RunsProgram(c.canaries), SourceProgram(STORAGES, c.sourceCleaned, claim), claim);
    RunsWanted(c, claim);
    SourceProgramWanted(c, claim, STORAGES, c.sourceCleaned);
    PartsComplete(FinaliserProgram(c, claim), c, claim);
  }

  /** The sweep redoes everything: it is complete for the runs of its inventory and all source storages. */
  lemma SweepIsComplete(refs: seq<CanaryRef>, claim: nat)
    requires forall i :: 0 <= i < |refs| ==> refs[i].cleaned == {}
    ensures CleansAll(SweepProgram(refs, claim), Context(refs, {}), claim)
  {
    TwoParts(SourceProgram(STORAGES, {}, claim), RunsProgram(refs), claim);
    RunsWanted(Context(refs, {}), claim);
    SourceProgramWanted(Context(refs, {}), claim, STORAGES, {});
    PartsComplete(SweepProgram(refs, claim), Context(refs, {}), claim);
  }

  /** The script's own end cleans all source storages. */
  lemma ClosingIsComplete(claim: nat)
    ensures CleansAll(ClosingProgram(claim), Context([], {}), claim)
  {
    var sources := SourceProgram(STORAGES, {}, claim);
    TwoParts([], sources, claim);
    assert [] + sources == sources;
    SourceProgramWanted(Context([], {}), claim, STORAGES, {});
    PartsComplete(ClosingProgram(claim), Context([], {}), claim);
  }

  // ---- Counting ----

  lemma {:induction false} VerificationsOf(a: seq<Instr>, b: seq<Instr>)
    ensures Verifications(a + b) == Verifications(a) + Verifications(b)
    decreases |b|
  {
    if b == [] {
      assert a + b == a;
    } else {
      var shorter := b[..|b| - 1];
      assert (a + b)[..|a + b| - 1] == a + shorter;
      VerificationsOf(a, shorter);
    }
  }
}
