/** What a drain that returned leaves behind: as long as no lease ran out, every admission of the work it
    did has ended for good, at Apify and at Gemini. */
module DrainReleases {
  import opened Basics
  import opened Delivery
  import opened Drain
  import opened DrainAdmissions
  import opened DrainRuns
  import opened DrainSystem
  import A = Admission
  import R = AdmissionRuns

  // ---- Gemini admissions are never rejected ----

  predicate GeminiKey(k: A.Key, id: Id) { k.provider.Gemini? && k.request == Uuid(2, id.ordinal) }

  /** Every Gemini lease of the id is held or has ended for good. */
  ghost predicate Lasting(s: A.State, id: Id) {
    forall k :: k in s.leases && GeminiKey(k, id) ==>
      && s.leases[k].input.key == k
      && (s.leases[k].status.Leased? || s.leases[k].status == A.Released(A.Terminal))
  }

  /** The operation recovers a Gemini lease of the id that has run out. */
  predicate Recovers(s: A.State, op: A.Op, id: Id) {
    op.Recover? && GeminiKey(op.key, id) && A.Overdue(s.leases, s.now, op.key)
  }

  /** A Gemini lease of the id has run out and is recovered, or an outsider releases one as rejected. */
  predicate GeminiUndercut(s: System, e: Event, id: Id) {
    var op := EventOp(s, e);
    && op.Some?
    && (|| Recovers(s.shared.admission, op.value, id)
        || (e.Outside? && e.op.Release? && GeminiKey(e.op.key, id)
            && RejectsInTime(s.shared.admission, e.op, e.op.key)))
  }

  function GeminiUndercutOf(id: Id): (System, Event) -> bool { (s: System, e: Event) => GeminiUndercut(s, e, id) }

  lemma OpKeepsLasting(s: A.State, op: A.Op, id: Id)
    requires Lasting(s, id) && !Recovers(s, op, id)
    requires op.Release? && GeminiKey(op.key, id) ==> !RejectsInTime(s, op, op.key)
    ensures Lasting(A.Apply(s, op).0, id)
  {}

  lemma EventKeepsLasting(expireEvery: nat, s: System, e: Event, id: Id)
    requires Enabled(s, e) && Lasting(s.shared.admission, id) && !GeminiUndercut(s, e, id)
    ensures Lasting(Advance(expireEvery, s, e).shared.admission, id)
  {
    EventApplies(expireEvery, s, e);
    if EventOp(s, e).Some? { OpKeepsLasting(s.shared.admission, EventOp(s, e).value, id); }
  }

  lemma {:induction false} RunKeepsLasting(expireEvery: nat, s: System, events: seq<Event>, t: System, id: Id)
    requires Lasting(s.shared.admission, id) && Reaches(expireEvery, s, events, t)
    requires Never(expireEvery, s, events, GeminiUndercutOf(id))
    ensures Lasting(t.shared.admission, id)
    decreases events
  {
    if events != [] {
      EventKeepsLasting(expireEvery, s, events[0], id);
      RunKeepsLasting(expireEvery, Advance(expireEvery, s, events[0]), events[1..], t, id);
    }
  }

  ghost predicate NoGemini(s: A.State, id: Id) { forall k :: k in s.leases ==> !GeminiKey(k, id) }

  /** Whatever the interleaving: an id that had no Gemini admission at the start, and none of whose Gemini
      leases ran out or was rejected from outside, has at no time one that could be granted again. */
  lemma GeminiIsNeverRejected(expireEvery: nat, start: System, events: seq<Event>, s: System, id: Id, k: A.Key)
    requires Reaches(expireEvery, start, events, s) && NoGemini(start.shared.admission, id)
    requires Never(expireEvery, start, events, GeminiUndercutOf(id)) && GeminiKey(k, id)
    ensures !A.Regrantable(s.shared.admission, k)
  {
    RunKeepsLasting(expireEvery, start, events, s, id);
  }

  // ---- Gemini admissions end ----

  /** Some Gemini admission of the id has ended for good. */
  ghost predicate GeminiOver(s: A.State, id: Id) {
    exists k :: k in s.leases && GeminiKey(k, id) && s.leases[k].status == A.Released(A.Terminal)
  }

  predicate Owns(s: A.State, id: Id, lease: A.Lease) { lease.input.key in s.leases && GeminiKey(lease.input.key, id) }

  ghost predicate GeminiStageFits(s: A.State, id: Id, stage: Stage) {
    match stage
    case GeminiAdmitted(_, lease) => Owns(s, id, lease)
    case CallingGemini(_, lease) => Owns(s, id, lease)
    case GeminiReleasing(_, lease) => Owns(s, id, lease)
    case GeminiRecovering(_, lease) => Owns(s, id, lease)
    case GeminiResolving(_, _) => false
    case GeminiFreeing(_) => GeminiOver(s, id)
    case GeminiDone => GeminiOver(s, id)
    case _ => true
  }

  predicate Ending(x: Worker, id: Id) { At(x, id) && (x.stage.GeminiReleasing? || x.stage.GeminiRecovering?) }

  ghost predicate IsEnding(ws: seq<Worker>, id: Id) { exists w :: 0 <= w < |ws| && Ending(ws[w], id) }

  /** A Gemini call that succeeded has its admission ended, or a delivery about to end it, or a failure
      behind it; an Apify call that was made is recorded, or a delivery is about to, or one failed. */
  ghost predicate Closes(ws: seq<Worker>, e: Entry, s: A.State, id: Id) {
    && (e.gemini == Some(Succeeded) ==> GeminiOver(s, id) || IsEnding(ws, id) || Failed(ws))
    && (e.apifyStarts >= 1 ==> e.provider == Some(Succeeded) || Covered(ws, id))
    && (forall w :: 0 <= w < |ws| && At(ws[w], id) ==> GeminiStageFits(s, id, ws[w].stage))
  }

  lemma OverStays(s: A.State, op: A.Op, id: Id)
    requires GeminiOver(s, id)
    ensures GeminiOver(A.Apply(s, op).0, id)
  {
    var k :| k in s.leases && GeminiKey(k, id) && s.leases[k].status == A.Released(A.Terminal);
    R.TerminalIsAbsorbing(s, [op], k);
    OneOp(s, op);
  }

  lemma OneOp(s: A.State, op: A.Op)
    ensures A.Run(s, [op]) == A.Apply(s, op).0
  {
    assert [op][1..] == [];
  }

  lemma OpKeepsKeys(s: A.State, op: A.Op, k: A.Key)
    requires k in s.leases
    ensures k in A.Apply(s, op).0.leases
  {}

  lemma OpKeepsStage(s: A.State, op: A.Op, id: Id, stage: Stage)
    requires GeminiStageFits(s, id, stage)
    ensures GeminiStageFits(A.Apply(s, op).0, id, stage)
  {
    if GeminiOver(s, id) { OverStays(s, op, id); }
    if (stage.GeminiAdmitted? || stage.CallingGemini? || stage.GeminiReleasing? || stage.GeminiRecovering?)
       && stage.lease.input.key in s.leases {
      OpKeepsKeys(s, op, stage.lease.input.key);
    }
  }

  lemma StoreKeepsCloses(ws: seq<Worker>, e: Entry, s: A.State, op: Option<A.Op>, id: Id)
    requires Closes(ws, e, s, id)
    ensures Closes(ws, e, Applied(s, op), id)
  {
    if op.Some? {
      if GeminiOver(s, id) { OverStays(s, op.value, id); }
      forall w | 0 <= w < |ws| && At(ws[w], id) ensures GeminiStageFits(Applied(s, op), id, ws[w].stage) {
        OpKeepsStage(s, op.value, id, ws[w].stage);
      }
    }
  }

  /** Turns that do not concern the id. */
  lemma FrameKeepsCloses(ws: seq<Worker>, ws': seq<Worker>, e: Entry, s: A.State, id: Id)
    requires Closes(ws, e, s, id) && Unconcerned(ws, ws', id)
    ensures Closes(ws', e, s, id)
  {
    if ApifyOwned(ws, id) {
      var w :| 0 <= w < |ws| && OwnsApify(ws[w], id);
      assert OwnsApify(ws'[w], id);
    }
    if IsEnding(ws, id) {
      var w :| 0 <= w < |ws| && Ending(ws[w], id);
      assert Ending(ws'[w], id);
    }
    forall w | 0 <= w < |ws'| && At(ws'[w], id) ensures GeminiStageFits(s, id, ws'[w].stage) {
      if Concerns(ws'[w], id) { assert ws[w] == ws'[w]; }
    }
  }

  // ---- One resumption ----

  lemma GeminiAdmits(expireEvery: nat, item: Item, e: Entry, slot: SlotLease, shared: Shared, random: Uuid)
    requires Lasting(shared.admission, item.id)
    ensures var o := Resume(expireEvery, item, e, GeminiAdmitting(slot), shared, random);
      o.next.Go? && o.next.stage.GeminiAdmitted? ==> Owns(o.shared.admission, item.id, o.next.stage.lease)
  {}

  lemma GeminiReleases(expireEvery: nat, item: Item, e: Entry, slot: SlotLease, lease: A.Lease, shared: Shared,
                       random: Uuid)
    requires Lasting(shared.admission, item.id) && Owns(shared.admission, item.id, lease)
    ensures var o := Resume(expireEvery, item, e, GeminiReleasing(slot, lease), shared, random);
      o.next.Go? && o.next.stage.GeminiFreeing? ==> GeminiOver(o.shared.admission, item.id)
  {
    var k := lease.input.key;
    var (s', reply) := A.ApplyRelease(shared.admission, k, lease.token, lease.fence, A.Terminal);
    assert reply.Done? ==> k in s'.leases && s'.leases[k].status == A.Released(A.Terminal);
  }

  lemma GeminiRecovers(expireEvery: nat, item: Item, e: Entry, slot: SlotLease, lease: A.Lease, shared: Shared,
                       random: Uuid)
    requires Lasting(shared.admission, item.id) && Owns(shared.admission, item.id, lease)
    requires !Recovers(shared.admission, A.Recover(lease.input.key, random), item.id)
    ensures Resume(expireEvery, item, e, GeminiRecovering(slot, lease), shared, random).next.Throw?
  {}

  lemma MovesClose(expireEvery: nat, item: Item, e: Entry, stage: Stage, e': Entry, next: Next, s': A.State)
    requires Moves(expireEvery, item, e, stage, e', next) && GeminiStageFits(s', item.id, stage) && !stage.Leaving?
    requires stage.GeminiAdmitting? && next.Go? && next.stage.GeminiAdmitted? ==> Owns(s', item.id, next.stage.lease)
    requires stage.GeminiReleasing? && next.Go? && next.stage.GeminiFreeing? ==> GeminiOver(s', item.id)
    requires stage.GeminiRecovering? ==> next.Throw?
    ensures next.Go? ==> GeminiStageFits(s', item.id, next.stage)
    ensures e'.gemini == Some(Succeeded) && e.gemini != Some(Succeeded) ==> Ending(After(item, next), item.id)
    ensures Ending(Busy(item, stage), item.id) ==>
      GeminiOver(s', item.id) || Ending(After(item, next), item.id) || next.Throw?
  {}

  lemma ResumeCloses(expireEvery: nat, item: Item, e: Entry, stage: Stage, shared: Shared, random: Uuid, o: Outcome)
    requires Lasting(shared.admission, item.id) && GeminiStageFits(shared.admission, item.id, stage)
    requires GeminiStageFits(o.shared.admission, item.id, stage) && !stage.Leaving?
    requires stage.GeminiRecovering? ==>
      !Recovers(shared.admission, A.Recover(stage.lease.input.key, random), item.id)
    requires o == Resume(expireEvery, item, e, stage, shared, random)
    ensures o.next.Go? ==> GeminiStageFits(o.shared.admission, item.id, o.next.stage)
    ensures o.entry.gemini == Some(Succeeded) && e.gemini != Some(Succeeded) ==> Ending(After(item, o.next), item.id)
    ensures Ending(Busy(item, stage), item.id) ==>
      GeminiOver(o.shared.admission, item.id) || Ending(After(item, o.next), item.id) || o.next.Throw?
  {
    ResumeMoves(expireEvery, item, e, stage, shared, random);
    if stage.GeminiAdmitting? {
      GeminiAdmits(expireEvery, item, e, stage.slot, shared, random);
    } else if stage.GeminiReleasing? {
      GeminiReleases(expireEvery, item, e, stage.slot, stage.lease, shared, random);
    } else if stage.GeminiRecovering? {
      GeminiRecovers(expireEvery, item, e, stage.slot, stage.lease, shared, random);
    }
    MovesClose(expireEvery, item, e, stage, o.entry, o.next, o.shared.admission);
  }

  // ---- One turn ----

  lemma ApifyCloses(expireEvery: nat, ws: seq<Worker>, w: nat, e: Entry, e': Entry, next: Next)
    requires Resumed(expireEvery, ws, w, e, e', next)
    requires e.apifyStarts >= 1 ==> e.provider == Some(Succeeded) || Covered(ws, ws[w].item.id)
    ensures e'.apifyStarts >= 1 ==>
      e'.provider == Some(Succeeded) || Covered(ws[w := After(ws[w].item, next)], ws[w].item.id)
  {
    CoverStays(expireEvery, ws, w, e, e', next);
  }

  lemma OwnTurnCloses(expireEvery: nat, ws: seq<Worker>, w: nat, e: Entry, shared: Shared, random: Uuid, o: Outcome)
    requires w < |ws| && ws[w].Busy? && !ws[w].stage.Leaving?
    requires o == Resume(expireEvery, ws[w].item, e, ws[w].stage, shared, random)
    requires Closes(ws, e, shared.admission, ws[w].item.id) && Closes(ws, e, o.shared.admission, ws[w].item.id)
    requires Lasting(shared.admission, ws[w].item.id)
    requires ws[w].stage.GeminiRecovering? ==>
      !Recovers(shared.admission, A.Recover(ws[w].stage.lease.input.key, random), ws[w].item.id)
    ensures Closes(ws[w := After(ws[w].item, o.next)], o.entry, o.shared.admission, ws[w].item.id)
  {
    var item, ws' := ws[w].item, ws[w := After(ws[w].item, o.next)];
    var id := item.id;
    assert GeminiStageFits(shared.admission, id, ws[w].stage) && GeminiStageFits(o.shared.admission, id, ws[w].stage);
    ResumeCloses(expireEvery, item, e, ws[w].stage, shared, random, o);
    ResumeMoves(expireEvery, item, e, ws[w].stage, shared, random);
    ApifyCloses(expireEvery, ws, w, e, o.entry, o.next);
    if Failed(ws) { FailedStays(ws, w, ws'[w]); }
    if Threw(ws'[w]) { assert Failed(ws'); }
    if Ending(ws'[w], id) { assert IsEnding(ws', id); }
    if IsEnding(ws, id) {
      var v :| 0 <= v < |ws| && Ending(ws[v], id);
      if v != w { assert Ending(ws'[v], id); }
    }
    forall v | 0 <= v < |ws'| && At(ws'[v], id) ensures GeminiStageFits(o.shared.admission, id, ws'[v].stage) {
      if v != w { assert ws'[v] == ws[v]; }
    }
  }

  lemma RestUnconcerned(p: Pool, w: nat, id: Id)
    requires CanStep(p, w) && (p.workers[w].Busy? ==> p.workers[w].stage.Leaving?)
    ensures !p.workers[w].Busy? ==> Unconcerned(p.workers, TakeNext(p, w).workers, id)
    ensures p.workers[w].Busy? ==> Unconcerned(p.workers, Leave(p, w, p.workers[w].stage.threw).workers, id)
  {
    if Failed(p.workers) {
      var v :| 0 <= v < |p.workers| && Threw(p.workers[v]);
      if p.workers[w].Busy? {
        assert Threw(Leave(p, w, p.workers[w].stage.threw).workers[v]);
      } else {
        assert Threw(TakeNext(p, w).workers[v]);
      }
    }
  }

  ghost predicate PoolCloses(p: Pool, s: A.State, id: Id) { Closes(p.workers, EntryOf(p, id), s, id) }

  lemma StepCloses(expireEvery: nat, p: Pool, w: nat, shared: Shared, random: Uuid, id: Id)
    requires CanStep(p, w) && PoolCloses(p, shared.admission, id) && Lasting(shared.admission, id)
    requires PoolCloses(p, Step(expireEvery, p, w, shared, random).1.admission, id)
    requires At(p.workers[w], id) && p.workers[w].stage.GeminiRecovering? ==>
      !Recovers(shared.admission, A.Recover(p.workers[w].stage.lease.input.key, random), id)
    ensures var (p', shared') := Step(expireEvery, p, w, shared, random); PoolCloses(p', shared'.admission, id)
  {
    var x := p.workers[w];
    if !x.Busy? || x.stage.Leaving? {
      RestUnconcerned(p, w, id);
      FrameKeepsCloses(p.workers, Step(expireEvery, p, w, shared, random).0.workers, EntryOf(p, id),
                       shared.admission, id);
    } else {
      var o := Resume(expireEvery, x.item, EntryOf(p, x.item.id), x.stage, shared, random);
      if x.item.id == id {
        OwnTurnCloses(expireEvery, p.workers, w, EntryOf(p, id), shared, random, o);
      } else {
        if Failed(p.workers) { FailedStays(p.workers, w, After(x.item, o.next)); }
        FrameKeepsCloses(p.workers, Progress(p, w, o).workers, EntryOf(p, id), o.shared.admission, id);
      }
    }
  }

  lemma EventCloses(expireEvery: nat, s: System, e: Event, role: Role, id: Id)
    requires Enabled(s, e) && PoolCloses(PoolOf(s, role), s.shared.admission, id)
    requires Lasting(s.shared.admission, id) && !GeminiUndercut(s, e, id)
    ensures var t := Advance(expireEvery, s, e); PoolCloses(PoolOf(t, role), t.shared.admission, id)
  {
    var p := PoolOf(s, role);
    EventApplies(expireEvery, s, e);
    StoreKeepsCloses(p.workers, EntryOf(p, id), s.shared.admission, EventOp(s, e), id);
    if e.Work? && e.role == role { StepCloses(expireEvery, p, e.worker, s.shared, e.random, id); }
  }

  lemma {:induction false} RunCloses(expireEvery: nat, s: System, events: seq<Event>, t: System, role: Role, id: Id)
    requires PoolCloses(PoolOf(s, role), s.shared.admission, id) && Lasting(s.shared.admission, id)
    requires Reaches(expireEvery, s, events, t) && Never(expireEvery, s, events, GeminiUndercutOf(id))
    ensures PoolCloses(PoolOf(t, role), t.shared.admission, id)
    decreases events
  {
    if events != [] {
      EventCloses(expireEvery, s, events[0], role, id);
      EventKeepsLasting(expireEvery, s, events[0], id);
      RunCloses(expireEvery, Advance(expireEvery, s, events[0]), events[1..], t, role, id);
    }
  }

  // ---- A drain that returned ----

  /** Whatever the interleaving: once a drain has returned, every id it accepted for which no lease ran out
      or was rejected in time has ended its Apify admission for good, and every paid one a Gemini
      admission; none of them can be granted again. */
  lemma ReturnedDrainReleased(expireEvery: nat, start: System, events: seq<Event>, s: System, role: Role, id: Id)
    requires Begins(start) && Reaches(expireEvery, start, events, s) && NoGemini(start.shared.admission, id)
    requires AllExited(PoolOf(s, role)) && |PoolOf(start, role).workers| > 0
    requires id in Accepted(PoolOf(start, role).queue)
    requires Never(expireEvery, start, events, UndercutOf(id))
    requires Never(expireEvery, start, events, GeminiUndercutOf(id))
    ensures R.ReleasedTerminal(s.shared.admission, ApifyInput(id).key)
    ensures id.role.Paid? ==> GeminiOver(s.shared.admission, id)
    ensures forall k :: GeminiKey(k, id) ==> !A.Regrantable(s.shared.admission, k)
  {
    var p, e := PoolOf(s, role), EntryOf(PoolOf(s, role), id);
    NoLostWork(expireEvery, start, events, s, role);
    assert e.terminal;
    ApifyAtMostTwice(expireEvery, start, events, s, role, id);
    GeminiAtMostOnce(expireEvery, start, events, s, role, id);
    RunCloses(expireEvery, start, events, s, role, id);
    assert Closes(p.workers, e, s.shared.admission, id);
    SucceededIsReleased(expireEvery, start, events, s, role, id);
    forall k | GeminiKey(k, id) ensures !A.Regrantable(s.shared.admission, k) {
      GeminiIsNeverRejected(expireEvery, start, events, s, id, k);
    }
  }
}
