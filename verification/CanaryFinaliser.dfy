/** The loops of the cleanup-only finaliser, which delete, verify, count and mark in order. */
module CanaryFinaliser {
  import opened CanaryEffects
  import opened CanaryJournal
  import opened CanaryProcesses

  datatype Result =
    | ContextInvalid
    | CostNotSettled
    | Interrupted
    | Finalised(canaryRuns: nat, verifications: nat)

  /** How many of the storages a set of flags leaves to do. */
  function Unclean(storages: seq<Storage>, cleaned: set<Storage>): nat {
    if storages == [] then 0
    else (if storages[0] in cleaned then 0 else 1) + Unclean(storages[1..], cleaned)
  }

  function UncleanFlags(refs: seq<CanaryRef>): nat {
    if refs == [] then 0 else |ALL - refs[0].cleaned| + UncleanFlags(refs[1..])
  }

  predicate ValidContext(c: Context) {
    |c.canaries| <= 2
    && forall i, k :: 0 <= i < k < |c.canaries| ==> c.canaries[i].rep != c.canaries[k].rep
  }

  lemma CountOf(a: set<Storage>)
    ensures |a| == (if Kvs in a then 1 else 0) + (if Dataset in a then 1 else 0) + if Queue in a then 1 else 0
  {
    var b := a - {Kvs};
    var c := b - {Dataset};
    var d := c - {Queue};
    assert d == {} by {
      forall storage | storage in a ensures storage.Kvs? || storage.Dataset? || storage.Queue? {}
    }
    assert |a| == |b| + if Kvs in a then 1 else 0;
    assert |b| == |c| + if Dataset in a then 1 else 0;
    assert |c| == |d| + if Queue in a then 1 else 0;
  }

  lemma UncleanCounts(cleaned: set<Storage>)
    ensures Unclean(STORAGES, cleaned) == |ALL - cleaned|
  {
    CountOf(ALL - cleaned);
    assert STORAGES[1..] == [Dataset, Queue] && [Dataset, Queue][1..] == [Queue] && [Queue][1..] == [];
    assert Unclean([Queue], cleaned) == if Queue in cleaned then 0 else 1;
  }

  lemma RunStep(ref: CanaryRef, storages: seq<Storage>, k: nat, log: seq<Instr>)
    requires k < |storages|
    ensures log + RunProgram(ref, storages[k..])
         == (log + RunPart(ref, storages[k])) + RunProgram(ref, storages[k + 1..])
    ensures Unclean(storages[k..], ref.cleaned)
         == (if storages[k] in ref.cleaned then 0 else 1) + Unclean(storages[k + 1..], ref.cleaned)
  {
    assert storages[k..][1..] == storages[k + 1..];
  }

  lemma RunsStep(refs: seq<CanaryRef>, i: nat, log: seq<Instr>)
    requires i < |refs|
    ensures log + RunsProgram(refs[i..]) == (log + RunProgram(refs[i], STORAGES)) + RunsProgram(refs[i + 1..])
    ensures UncleanFlags(refs[i..]) == |ALL - refs[i].cleaned| + UncleanFlags(refs[i + 1..])
  {
    assert refs[i..][1..] == refs[i + 1..];
  }

  lemma SourcesStep(storage: Storage, n: nat, log: seq<Instr>)
    requires n < SOURCES
    ensures log + WipeSources(n, storage)
         == (log + [Delete(n, storage), Verify(n, storage)]) + WipeSources(n + 1, storage)
  {}

  lemma SourceStep(storages: seq<Storage>, skip: set<Storage>, claim: nat, k: nat, log: seq<Instr>)
    requires k < |storages|
    ensures log + SourceProgram(storages[k..], skip, claim)
         == (log + SourcePart(storages[k], skip, claim)) + SourceProgram(storages[k + 1..], skip, claim)
    ensures Unclean(storages[k..], skip)
         == (if storages[k] in skip then 0 else 1) + Unclean(storages[k + 1..], skip)
  {
    assert storages[k..][1..] == storages[k + 1..] && storages[k..][0] == storages[k];
    Regroup(log, SourcePart(storages[k], skip, claim), SourceProgram(storages[k + 1..], skip, claim));
  }

  // ---- How many verifications the program holds ----

  lemma {:induction false} RunVerifications(ref: CanaryRef, storages: seq<Storage>)
    ensures Verifications(RunProgram(ref, storages)) == Unclean(storages, ref.cleaned)
    decreases storages
  {
    if storages != [] {
      VerificationsOf(RunPart(ref, storages[0]), RunProgram(ref, storages[1..]));
      WipeVerifications(ref.rep, ref.id, storages[0]);
      RunVerifications(ref, storages[1..]);
    }
  }

  lemma WipeVerifications(rep: Rep, id: nat, storage: Storage)
    ensures Verifications(WipeRun(rep, id, storage)) == 1
  {
    AttemptVerifications(id, storage);
    VerificationsOf([Delete(id, storage), Verify(id, storage)], [MarkRun(rep, id, storage)]);
    assert [Delete(id, storage), Verify(id, storage)] + [MarkRun(rep, id, storage)] == WipeRun(rep, id, storage);
    OneEffect(MarkRun(rep, id, storage));
  }

  lemma OneEffect(effect: Instr)
    ensures Verifications([effect]) == if effect.Verify? then 1 else 0
  {
    assert [effect][..0] == [];
  }

  lemma AttemptVerifications(id: nat, storage: Storage)
    ensures Verifications([Delete(id, storage), Verify(id, storage)]) == 1
  {
    OneEffect(Delete(id, storage));
    OneEffect(Verify(id, storage));
    VerificationsOf([Delete(id, storage)], [Verify(id, storage)]);
    assert [Delete(id, storage)] + [Verify(id, storage)] == [Delete(id, storage), Verify(id, storage)];
  }

  lemma {:induction false} RunsVerifications(refs: seq<CanaryRef>)
    ensures Verifications(RunsProgram(refs)) == UncleanFlags(refs)
    decreases refs
  {
    if refs != [] {
      VerificationsOf(RunProgram(refs[0], STORAGES), RunsProgram(refs[1..]));
      RunVerifications(refs[0], STORAGES);
      UncleanCounts(refs[0].cleaned);
      RunsVerifications(refs[1..]);
    }
  }

  lemma {:induction false} WipesVerifications(n: nat, storage: Storage)
    requires n <= SOURCES
    ensures Verifications(WipeSources(n, storage)) == SOURCES - n
    decreases SOURCES - n
  {
    if n < SOURCES {
      AttemptVerifications(n, storage);
      VerificationsOf([Delete(n, storage), Verify(n, storage)], WipeSources(n + 1, storage));
      WipesVerifications(n + 1, storage);
    }
  }

  lemma PartVerifications(storage: Storage, skip: set<Storage>, claim: nat, from: nat)
    requires from == 0
    ensures Verifications(SourcePart(storage, skip, claim)) == if storage in skip then 0 else SOURCES - from
  {
    if storage !in skip {
      VerificationsOf(WipeSources(from, storage), [MarkSource(claim, storage)]);
      OneEffect(MarkSource(claim, storage));
      WipesVerifications(from, storage);
    }
  }

  lemma {:induction false} SourceVerifications(storages: seq<Storage>, skip: set<Storage>, claim: nat)
    ensures Verifications(SourceProgram(storages, skip, claim)) == SOURCES * Unclean(storages, skip)
    decreases storages
  {
    if storages != [] {
      VerificationsOf(SourcePart(storages[0], skip, claim), SourceProgram(storages[1..], skip, claim));
      PartVerifications(storages[0], skip, claim, 0);
      SourceVerifications(storages[1..], skip, claim);
    }
  }

  lemma ProgramVerifications(c: Context, claim: nat)
    ensures Verifications(FinaliserProgram(c, claim))
         == UncleanFlags(c.canaries) + SOURCES * |ALL - c.sourceCleaned|
  {
    var runs, sources := RunsProgram(c.canaries), SourceProgram(STORAGES, c.sourceCleaned, claim);
    RunsVerifications(c.canaries);
    SourceVerifications(STORAGES, c.sourceCleaned, claim);
    UncleanCounts(c.sourceCleaned);
    VerificationsOf(runs, sources);
    VerificationsOf(runs + sources, [Finish(claim)]);
    OneEffect(Finish(claim));
  }

  /** Performs the effects and keeps their log. An effect fails, or the invocation stops, when its
      patience is exhausted; it is arbitrary at the start. */
  class Cleaner {
    var log: seq<Instr>
    var patience: nat

    constructor (patience: nat)
      ensures log == [] && this.patience == patience
    {
      log := [];
      this.patience := patience;
    }

    /** Every effect costs one unit of patience; either the whole program was performed, or a proper
        part of it from its beginning and no patience is left. */
    twostate predicate Performed(program: seq<Instr>, ok: bool)
      reads this
    {
      && |log| + patience == old(|log| + patience)
      && (ok ==> log == old(log) + program)
      && (!ok ==> patience == 0 && old(log) <= log < old(log) + program)
    }

    method Perform(effect: Instr) returns (ok: bool)
      modifies this
      ensures Performed([effect], ok)
    {
      ok := patience > 0;
      if ok {
        log := log + [effect];
        patience := patience - 1;
      }
    }

    method DeleteAndVerify(id: nat, storage: Storage) returns (ok: bool)
      modifies this
      ensures Performed([Delete(id, storage), Verify(id, storage)], ok)
    {
      ok := Perform(Delete(id, storage));
      if ok {
        ok := Perform(Verify(id, storage));
      }
    }

    method CleanStorage(ref: CanaryRef, storage: Storage) returns (ok: bool, verified: nat)
      modifies this
      ensures Performed(RunPart(ref, storage), ok)
      ensures ok ==> verified == if storage in ref.cleaned then 0 else 1
    {
      ok, verified := true, 0;
      if storage in ref.cleaned { return; }
      ok := DeleteAndVerify(ref.id, storage);
      if !ok { return; }
      verified := 1;
      ok := Perform(MarkRun(ref.rep, ref.id, storage));
    }

    method CleanRun(ref: CanaryRef, storages: seq<Storage>) returns (ok: bool, verified: nat)
      modifies this
      ensures Performed(RunProgram(ref, storages), ok)
      ensures ok ==> verified == Unclean(storages, ref.cleaned)
    {
      ok, verified := true, 0;
      for k := 0 to |storages|
        invariant |log| + patience == old(|log| + patience) && old(log) <= log
        invariant log + RunProgram(ref, storages[k..]) == old(log) + RunProgram(ref, storages)
        invariant verified + Unclean(storages[k..], ref.cleaned) == Unclean(storages, ref.cleaned)
      {
        RunStep(ref, storages, k, log);
        var n;
        ok, n := CleanStorage(ref, storages[k]);
        if !ok { return; }
        verified := verified + n;
      }
    }

    method CleanRuns(refs: seq<CanaryRef>) returns (ok: bool, verified: nat)
      modifies this
      ensures Performed(RunsProgram(refs), ok)
      ensures ok ==> verified == UncleanFlags(refs)
    {
      ok, verified := true, 0;
      for i := 0 to |refs|
        invariant |log| + patience == old(|log| + patience) && old(log) <= log
        invariant log + RunsProgram(refs[i..]) == old(log) + RunsProgram(refs)
        invariant verified + UncleanFlags(refs[i..]) == UncleanFlags(refs)
      {
        RunsStep(refs, i, log);
        UncleanCounts(refs[i].cleaned);
        var n;
        ok, n := CleanRun(refs[i], STORAGES);
        if !ok { return; }
        verified := verified + n;
      }
    }

    method WipeSourceRuns(storage: Storage) returns (ok: bool, verified: nat)
      modifies this
      ensures Performed(WipeSources(0, storage), ok)
      ensures ok ==> verified == SOURCES
    {
      ok, verified := true, 0;
      for n := 0 to SOURCES
        invariant |log| + patience == old(|log| + patience) && old(log) <= log
        invariant log + WipeSources(n, storage) == old(log) + WipeSources(0, storage)
        invariant verified == n
      {
        SourcesStep(storage, n, log);
        ok := DeleteAndVerify(n, storage);
        if !ok { return; }
        verified := verified + 1;
      }
    }

    method CleanSource(storage: Storage, skip: set<Storage>, claim: nat) returns (ok: bool, verified: nat)
      modifies this
      ensures Performed(SourcePart(storage, skip, claim), ok)
      ensures ok ==> verified == if storage in skip then 0 else SOURCES
    {
      ok, verified := true, 0;
      if storage in skip { return; }
      ok, verified := WipeSourceRuns(storage);
      if !ok { return; }
      ok := Perform(MarkSource(claim, storage));
    }

    method CleanSources(storages: seq<Storage>, skip: set<Storage>, claim: nat) returns (ok: bool, verified: nat)
      modifies this
      ensures Performed(SourceProgram(storages, skip, claim), ok)
      ensures ok ==> verified == SOURCES * Unclean(storages, skip)
    {
      ok, verified := true, 0;
      for k := 0 to |storages|
        invariant |log| + patience == old(|log| + patience) && old(log) <= log
        invariant log + SourceProgram(storages[k..], skip, claim) == old(log) + SourceProgram(storages, skip, claim)
        invariant verified + SOURCES * Unclean(storages[k..], skip) == SOURCES * Unclean(storages, skip)
      {
        SourceStep(storages, skip, claim, k, log);
        var n;
        ok, n := CleanSource(storages[k], skip, claim);
        if !ok { return; }
        verified := verified + n;
      }
    }

    method CleanEverything(context: Context, claim: nat) returns (ok: bool, verified: nat)
      modifies this
      ensures Performed(FinaliserProgram(context, claim), ok)
      ensures ok ==> verified == UncleanFlags(context.canaries) + SOURCES * |ALL - context.sourceCleaned|
    {
      ghost var canaryPart := RunsProgram(context.canaries);
      ghost var sourcePart := SourceProgram(STORAGES, context.sourceCleaned, claim);
      ghost var base := log;
      assert base + FinaliserProgram(context, claim) == ((base + canaryPart) + sourcePart) + [Finish(claim)];
      ok, verified := CleanRuns(context.canaries);
      if !ok { return; }
      var sources;
      ok, sources := CleanSources(STORAGES, context.sourceCleaned, claim);
      if !ok { return; }
      UncleanCounts(context.sourceCleaned);
      verified := verified + sources;
      ok := Perform(Finish(claim));
    }

    /** A finaliser call under a cleanup claim: an invalid context or an unsettled cost is refused
        before any effect; otherwise the finaliser program is performed in order. The effects of a call
        that completes it delete, verify and mark everything the context left, touch nothing else and end
        with the experiment; the call reports exactly the verifications among them, which are the unclean
        canary flags plus eight for each unclean source flag. */
    method Finalise(context: Context, claim: nat) returns (result: Result)
      modifies this
      ensures !ValidContext(context) ==> result == ContextInvalid
      ensures ValidContext(context) && !AllSettled(context) ==> result == CostNotSettled
      ensures result == ContextInvalid || result == CostNotSettled ==> log == old(log) && patience == old(patience)
      ensures ValidContext(context) && AllSettled(context) ==>
        Performed(FinaliserProgram(context, claim), result.Finalised?)
      ensures result.Finalised? ==>
        && result.canaryRuns == |context.canaries|
        && result.verifications == UncleanFlags(context.canaries) + SOURCES * |ALL - context.sourceCleaned|
      ensures result.Finalised? ==>
        && old(log) <= log && CleansAll(log[|old(log)|..], context, claim)
        && result.verifications == Verifications(log[|old(log)|..])
    {
      if !ValidContext(context) { return ContextInvalid; }
      if !AllSettled(context) { return CostNotSettled; }
      var ok, verified := CleanEverything(context, claim);
      FinaliserIsComplete(context, claim);
      ProgramVerifications(context, claim);
      if ok { assert log[|old(log)|..] == FinaliserProgram(context, claim); }
      result := if ok then Finalised(|context.canaries|, verified) else Interrupted;
    }
  }
}
