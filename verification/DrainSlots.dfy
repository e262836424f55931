/** The Gemini slots of the drains: a delivery in its Gemini stage has its slot to itself, under its own
    claim and fence, and a drain that returned has given every slot back. */
module DrainSlots {
  import opened Basics
  import opened Delivery
  import opened Drain
  import opened DrainAdmissions
  import opened DrainDeliveries
  import opened DrainRuns
  import opened DrainSystem
  import G = GeminiSlots

  predicate InSlot(stage: Stage) {
    stage.GeminiAdmitting? || stage.GeminiDenied? || stage.GeminiAdmitted? || stage.CallingGemini?
    || stage.GeminiReleasing? || stage.GeminiRecovering? || stage.GeminiResolving? || stage.GeminiFreeing?
  }

  predicate Uses(x: Worker) { x.Busy? && InSlot(x.stage) }

  /** Nothing but this slot has changed. */
  predicate OneSlot(t: seq<G.Slot>, t': seq<G.Slot>, k: nat, slot: G.Slot) {
    k < |t| && t' == t[k := slot]
  }

  // ---- One resumption ----

  /** A delivery keeps what it holds, or fails; or enters its Gemini stage with a slot; or leaves it and
      frees its slot. */
  ghost predicate SlotMove(t: seq<G.Slot>, t': seq<G.Slot>, identity: G.Identity, stage: Stage, next: Next) {
    if InSlot(stage) then
      || (t' == t && next.Go? && InSlot(next.stage) && next.stage.slot == stage.slot)
      || (t' == t && next.Throw?)
      || (1 <= stage.slot.slot && OneSlot(t, t', stage.slot.slot - 1, G.Slot(stage.slot.fence, None, None))
          && next.Go? && !InSlot(next.stage))
    else if next.Go? && InSlot(next.stage) then
      && HasSlot(t', next.stage.slot, identity)
      && (t' == t || (OneSlot(t, t', next.stage.slot.slot - 1, t'[next.stage.slot.slot - 1])
                      && t[next.stage.slot.slot - 1].identity.None?))
    else t' == t
  }

  lemma TakeMoves(expireEvery: nat, item: Item, e: Entry, shared: Shared, random: Uuid)
    requires G.Valid(shared.slots)
    ensures var o := Resume(expireEvery, item, e, Returned, shared, random);
      && SlotMove(shared.slots, o.shared.slots, GeminiIdentity(item.id), Returned, o.next)
      && G.Valid(o.shared.slots)
  {
    G.StepKeepsValid(shared.slots, G.Take(GeminiIdentity(item.id), random));
  }

  lemma GiveMoves(t: seq<G.Slot>, slot: SlotLease, identity: G.Identity)
    requires G.Valid(t) && HasSlot(t, slot, identity)
    ensures G.Apply(t, G.Give(slot.slot, slot.claim, slot.fence))
         == (t[slot.slot - 1 := G.Slot(slot.fence, None, None)], G.Given(true, slot.fence))
    ensures G.Valid(t[slot.slot - 1 := G.Slot(slot.fence, None, None)])
  {
    G.StepKeepsValid(t, G.Give(slot.slot, slot.claim, slot.fence));
  }

  lemma HoldsOn(expireEvery: nat, item: Item, e: Entry, stage: Stage, shared: Shared, random: Uuid)
    requires InSlot(stage) && !stage.GeminiDenied? && !stage.GeminiFreeing?
    ensures var o := Resume(expireEvery, item, e, stage, shared, random);
      && o.shared.slots == shared.slots
      && (o.next.Throw? || (o.next.Go? && InSlot(o.next.stage) && o.next.stage.slot == stage.slot))
  {}

  lemma StaysOut(expireEvery: nat, item: Item, e: Entry, stage: Stage, shared: Shared, random: Uuid)
    requires !InSlot(stage) && !stage.Returned? && !stage.Leaving?
    ensures var o := Resume(expireEvery, item, e, stage, shared, random);
      o.shared.slots == shared.slots && (o.next.Go? ==> !InSlot(o.next.stage))
  {}

  lemma GivesBack(expireEvery: nat, item: Item, e: Entry, stage: Stage, shared: Shared, random: Uuid)
    requires G.Valid(shared.slots) && (stage.GeminiDenied? || stage.GeminiFreeing?)
    requires HasSlot(shared.slots, stage.slot, GeminiIdentity(item.id))
    ensures var o := Resume(expireEvery, item, e, stage, shared, random);
      && SlotMove(shared.slots, o.shared.slots, GeminiIdentity(item.id), stage, o.next)
      && G.Valid(o.shared.slots)
  {
    GiveMoves(shared.slots, stage.slot, GeminiIdentity(item.id));
  }

  lemma ResumeMovesSlot(expireEvery: nat, item: Item, e: Entry, stage: Stage, shared: Shared, random: Uuid, o: Outcome)
    requires G.Valid(shared.slots) && !stage.Leaving?
    requires InSlot(stage) ==> HasSlot(shared.slots, stage.slot, GeminiIdentity(item.id))
    requires o == Resume(expireEvery, item, e, stage, shared, random)
    ensures SlotMove(shared.slots, o.shared.slots, GeminiIdentity(item.id), stage, o.next) && G.Valid(o.shared.slots)
  {
    if stage.Returned? {
      TakeMoves(expireEvery, item, e, shared, random);
    } else if stage.GeminiDenied? || stage.GeminiFreeing? {
      GivesBack(expireEvery, item, e, stage, shared, random);
    } else if InSlot(stage) {
      HoldsOn(expireEvery, item, e, stage, shared, random);
    } else {
      StaysOut(expireEvery, item, e, stage, shared, random);
    }
  }

  /** A paid delivery past the Apify stage that finds all slots claimed by others waits, and whatever happens
      until its worker's next turn, that turn queues its item again; it fails exactly if its identity holds a
      slot under another claim. */
  lemma FullIsQueuedAgain(expireEvery: nat, p: Pool, w: nat, shared: Shared, random: Uuid,
                          later: Pool, given: Shared, other: Uuid)
    requires w < |p.workers| && p.workers[w].Busy? && p.workers[w].stage.Returned? && G.Valid(shared.slots)
    requires var e := EntryOf(p, p.workers[w].item.id);
      p.workers[w].item.id.role.Paid? && e.provider != Some(Running) && e.gemini.None?
    requires w < |later.workers| && later.workers[w] == Step(expireEvery, p, w, shared, random).0.workers[w]
    ensures var item, x, t := p.workers[w].item, later.workers[w], shared.slots;
            var identity, last := GeminiIdentity(item.id), Step(expireEvery, later, w, given, other).0;
      && (x.stage.GeminiFull? <==> forall i :: 0 <= i < |t| ==> t[i].claim.Some? && t[i].identity != Some(identity))
      && (x.stage.GeminiAborting? <==>
            exists i :: 0 <= i < |t| && t[i].identity == Some(identity) && t[i].claim != Some(random))
      && (x.stage.GeminiFull? ==>
            && last.queue == later.queue + [item.(attempt := item.attempt + 1)]
            && last.workers[w] == Busy(item, Leaving(false)))
  {
    G.TakeExactly(shared.slots, GeminiIdentity(p.workers[w].item.id), random);
  }

  /** A delivery past its Gemini call completes exactly if nobody has been granted its slot since. */
  lemma FreeingExactly(expireEvery: nat, item: Item, e: Entry, slot: SlotLease, shared: Shared, random: Uuid)
    requires 1 <= slot.slot <= |shared.slots|
    ensures var next := Resume(expireEvery, item, e, GeminiFreeing(slot), shared, random).next;
      && (next == Go(GeminiDone) <==> shared.slots[slot.slot - 1].fence == slot.fence)
      && (next == Go(GeminiDone) || next.Throw?)
  {}

  // ---- Every run ----

  /** Every delivery in its Gemini stage is a paid one, holds its slot, and is the only one of its id; and a
      claimed slot is held by such a delivery, unless one threw. */
  ghost predicate SlotsFit(ws: seq<Worker>, t: seq<G.Slot>) {
    && G.Valid(t)
    && (forall w :: 0 <= w < |ws| && Uses(ws[w]) ==>
          ws[w].item.id.role.Paid? && HasSlot(t, ws[w].stage.slot, GeminiIdentity(ws[w].item.id)))
    && (forall v, w ::
          (0 <= v < |ws| && 0 <= w < |ws| && Uses(ws[v]) && Uses(ws[w]) && ws[v].item.id == ws[w].item.id) ==> v == w)
    && (forall i: nat :: i < |t| && t[i].identity.Some? ==> IsUsed(ws, i) || Failed(ws))
  }

  ghost predicate IsUsed(ws: seq<Worker>, i: nat) {
    exists w :: 0 <= w < |ws| && Uses(ws[w]) && ws[w].stage.slot.slot == i + 1
  }

  /** Nobody in the Gemini stage changes, and no failure is forgotten. */
  lemma OthersKeepSlots(ws: seq<Worker>, ws': seq<Worker>, t: seq<G.Slot>)
    requires SlotsFit(ws, t) && |ws'| == |ws| && (Failed(ws) ==> Failed(ws'))
    requires forall v :: 0 <= v < |ws| ==> (Uses(ws[v]) || Uses(ws'[v])) ==> ws'[v] == ws[v]
    ensures SlotsFit(ws', t)
  {
    forall i: nat | i < |t| && t[i].identity.Some? ensures IsUsed(ws', i) || Failed(ws') {
      if IsUsed(ws, i) {
        var w :| 0 <= w < |ws| && Uses(ws[w]) && ws[w].stage.slot.slot == i + 1;
        assert Uses(ws'[w]);
      }
    }
  }

  /** A delivery that is not in the Gemini stage of its id finds nobody else there when it enters. */
  predicate EntersAlone(ws: seq<Worker>, w: nat, next: Next) {
    w < |ws| && ws[w].Busy?
    && (!InSlot(ws[w].stage) && next.Go? && InSlot(next.stage) ==>
          ws[w].item.id.role.Paid? && forall v :: 0 <= v < |ws| && Uses(ws[v]) ==> ws[v].item.id != ws[w].item.id)
  }

  lemma MoveKeepsHolders(ws: seq<Worker>, w: nat, t: seq<G.Slot>, t': seq<G.Slot>, next: Next)
    requires SlotsFit(ws, t) && EntersAlone(ws, w, next) && G.Valid(t')
    requires SlotMove(t, t', GeminiIdentity(ws[w].item.id), ws[w].stage, next)
    ensures forall v :: 0 <= v < |ws| && v != w && Uses(ws[v]) ==>
      ws[v].item.id.role.Paid? && HasSlot(t', ws[v].stage.slot, GeminiIdentity(ws[v].item.id))
  {
    forall v | 0 <= v < |ws| && v != w && Uses(ws[v])
      ensures ws[v].item.id.role.Paid? && HasSlot(t', ws[v].stage.slot, GeminiIdentity(ws[v].item.id))
    {
      assert HasSlot(t, ws[v].stage.slot, GeminiIdentity(ws[v].item.id));
      if Uses(ws[w]) { assert ws[v].item.id != ws[w].item.id && ws[w].item.id.role.Paid?; }
    }
  }

  lemma MoveKeepsUse(ws: seq<Worker>, w: nat, t: seq<G.Slot>, t': seq<G.Slot>, next: Next)
    requires SlotsFit(ws, t) && EntersAlone(ws, w, next) && G.Valid(t') && !ws[w].stage.Leaving?
    requires SlotMove(t, t', GeminiIdentity(ws[w].item.id), ws[w].stage, next)
    ensures var ws' := ws[w := After(ws[w].item, next)];
      forall i: nat :: i < |t'| && t'[i].identity.Some? ==> IsUsed(ws', i) || Failed(ws')
  {
    var ws' := ws[w := After(ws[w].item, next)];
    if Failed(ws) { FailedStays(ws, w, ws'[w]); }
    if next.Throw? { assert Threw(ws'[w]); }
    forall i: nat | i < |t'| && t'[i].identity.Some? ensures IsUsed(ws', i) || Failed(ws') {
      if i < |t| && t[i].identity.Some? && IsUsed(ws, i) {
        var v :| 0 <= v < |ws| && Uses(ws[v]) && ws[v].stage.slot.slot == i + 1;
        if v != w || (next.Go? && InSlot(next.stage)) { assert Uses(ws'[v]) && ws'[v].stage.slot.slot == i + 1; }
      } else if next.Go? && InSlot(next.stage) {
        assert Uses(ws'[w]);
      }
    }
  }

  lemma MoveKeepsSlots(ws: seq<Worker>, w: nat, t: seq<G.Slot>, t': seq<G.Slot>, next: Next)
    requires SlotsFit(ws, t) && EntersAlone(ws, w, next) && G.Valid(t') && !ws[w].stage.Leaving?
    requires SlotMove(t, t', GeminiIdentity(ws[w].item.id), ws[w].stage, next)
    ensures SlotsFit(ws[w := After(ws[w].item, next)], t')
  {
    MoveKeepsHolders(ws, w, t, t', next);
    MoveKeepsUse(ws, w, t, t', next);
  }

  lemma Alone(expireEvery: nat, ws: seq<Worker>, w: nat, e: Entry, e': Entry, next: Next)
    requires Resumed(expireEvery, ws, w, e, e', next) && GeminiOk(ws, e, ws[w].item.id)
    requires GeminiOk(ws[w := After(ws[w].item, next)], e', ws[w].item.id)
    ensures EntersAlone(ws, w, next)
  {
    if !InSlot(ws[w].stage) && next.Go? && InSlot(next.stage) {
      var id := ws[w].item.id;
      assert GeminiFits(ws[w := After(ws[w].item, next)][w], e', id);
      forall v | 0 <= v < |ws| && Uses(ws[v]) ensures ws[v].item.id != id {
        assert GeminiFits(ws[v], e, id);
      }
    }
  }

  lemma ProgressKeepsSlots(expireEvery: nat, ws: seq<Worker>, w: nat, e: Entry, shared: Shared, random: Uuid,
                           o: Outcome)
    requires w < |ws| && ws[w].Busy? && !ws[w].stage.Leaving? && SlotsFit(ws, shared.slots)
    requires LedgerOk(expireEvery, ws, e, ws[w].item.id)
    requires o == Resume(expireEvery, ws[w].item, e, ws[w].stage, shared, random)
    ensures SlotsFit(ws[w := After(ws[w].item, o.next)], o.shared.slots)
  {
    ResumeMoves(expireEvery, ws[w].item, e, ws[w].stage, shared, random);
    GeminiStep(expireEvery, ws, w, e, o.entry, o.next);
    Alone(expireEvery, ws, w, e, o.entry, o.next);
    ResumeMovesSlot(expireEvery, ws[w].item, e, ws[w].stage, shared, random, o);
    MoveKeepsSlots(ws, w, shared.slots, o.shared.slots, o.next);
  }

  lemma StepKeepsSlots(expireEvery: nat, p: Pool, w: nat, shared: Shared, random: Uuid)
    requires Inv(expireEvery, p) && CanStep(p, w) && SlotsFit(p.workers, shared.slots)
    ensures var (p', shared') := Step(expireEvery, p, w, shared, random); SlotsFit(p'.workers, shared'.slots)
  {
    var x := p.workers[w];
    if !x.Busy? || x.stage.Leaving? {
      FailuresAreKept(p, w);
      OthersKeepSlots(p.workers, if x.Busy? then Leave(p, w, x.stage.threw).workers else TakeNext(p, w).workers,
                      shared.slots);
    } else {
      var e := EntryOf(p, x.item.id);
      assert LedgerOk(expireEvery, p.workers, e, x.item.id);
      ProgressKeepsSlots(expireEvery, p.workers, w, e, shared, random,
                         Resume(expireEvery, x.item, e, x.stage, shared, random));
    }
  }

  lemma FailuresAreKept(p: Pool, w: nat)
    requires CanStep(p, w) && (p.workers[w].Busy? ==> p.workers[w].stage.Leaving?)
    ensures !p.workers[w].Busy? ==> (Failed(p.workers) ==> Failed(TakeNext(p, w).workers))
    ensures p.workers[w].Busy? ==> (Failed(p.workers) ==> Failed(Leave(p, w, p.workers[w].stage.threw).workers))
  {
    if Failed(p.workers) {
      var v :| 0 <= v < |p.workers| && Threw(p.workers[v]);
      if p.workers[w].Busy? {
        assert Threw(Leave(p, w, p.workers[w].stage.threw).workers[v]);
      } else {
        assert Threw(TakeNext(p, w).workers[v]);
      }
    }
  }

  /** The preflight drain has preflight ids only. */
  ghost predicate OfPreflight(p: Pool) { forall i :: 0 <= i < |p.queue| ==> p.queue[i].id.role.Preflight? }

  ghost predicate NoneUses(ws: seq<Worker>) { forall w :: 0 <= w < |ws| ==> !Uses(ws[w]) }

  lemma PreflightUsesNone(expireEvery: nat, p: Pool)
    requires Inv(expireEvery, p) && OfPreflight(p)
    ensures NoneUses(p.workers)
  {
    forall w | 0 <= w < |p.workers| ensures !Uses(p.workers[w]) {
      if p.workers[w].Busy? {
        var id := p.workers[w].item.id;
        assert WorkerFits(p, p.workers[w]);
        var i :| 0 <= i < |p.queue| && p.queue[i].id == id;
        assert LedgerOk(expireEvery, p.workers, EntryOf(p, id), id);
        assert GeminiFits(p.workers[w], EntryOf(p, id), id);
      }
    }
  }

  lemma PreflightKeepsSlots(expireEvery: nat, p: Pool, w: nat, shared: Shared, random: Uuid)
    requires Inv(expireEvery, p) && OfPreflight(p) && CanStep(p, w)
    ensures Step(expireEvery, p, w, shared, random).1.slots == shared.slots
  {
    PreflightUsesNone(expireEvery, p);
    var x := p.workers[w];
    assert WorkerFits(p, x) && !Uses(x);
    if x.Busy? && !x.stage.Leaving? {
      var i :| 0 <= i < |p.queue| && p.queue[i].id == x.item.id;
      assert x.item.id.role.Preflight?;
      if !x.stage.Returned? { StaysOut(expireEvery, x.item, EntryOf(p, x.item.id), x.stage, shared, random); }
    }
  }

  lemma PreflightStays(p: Pool, p': Pool)
    requires OfPreflight(p) && Grew(p, p')
    ensures OfPreflight(p')
  {
    forall i | 0 <= i < |p'.queue| ensures p'.queue[i].id.role.Preflight? {
      assert p'.queue[i].id in Accepted(p.queue);
      var k :| 0 <= k < |p.queue| && p.queue[k].id == p'.queue[i].id;
    }
  }

  function SlotOutside(): (System, Event) -> bool { (s: System, e: Event) => e.OutsideSlot? }

  lemma EventKeepsSlots(expireEvery: nat, s: System, e: Event)
    requires Sound(expireEvery, s) && Enabled(s, e) && !e.OutsideSlot?
    requires OfPreflight(s.preflight) && SlotsFit(s.paid.workers, s.shared.slots)
    ensures var t := Advance(expireEvery, s, e); SlotsFit(t.paid.workers, t.shared.slots)
  {
    if e.Work? {
      if e.role.Paid? {
        StepKeepsSlots(expireEvery, s.paid, e.worker, s.shared, e.random);
      } else {
        PreflightKeepsSlots(expireEvery, s.preflight, e.worker, s.shared, e.random);
      }
    }
  }

  lemma {:induction false} RunKeepsSlots(expireEvery: nat, s: System, events: seq<Event>, t: System)
    requires Sound(expireEvery, s) && OfPreflight(s.preflight) && SlotsFit(s.paid.workers, s.shared.slots)
    requires Reaches(expireEvery, s, events, t) && Never(expireEvery, s, events, SlotOutside())
    ensures SlotsFit(t.paid.workers, t.shared.slots)
    decreases events
  {
    if events != [] {
      var n := Advance(expireEvery, s, events[0]);
      EventIsSound(expireEvery, s, events[0]);
      EventKeepsSlots(expireEvery, s, events[0]);
      PreflightStays(s.preflight, n.preflight);
      RunKeepsSlots(expireEvery, n, events[1..], t);
    }
  }

  /** Two drains over free slots that nobody else uses. */
  ghost predicate FreshSlots(expireEvery: nat, start: System, events: seq<Event>) {
    && Begins(start) && OfPreflight(start.preflight) && G.AllFree(start.shared.slots)
    && Never(expireEvery, start, events, SlotOutside())
  }

  lemma SlotsReached(expireEvery: nat, start: System, events: seq<Event>, s: System)
    requires FreshSlots(expireEvery, start, events) && Reaches(expireEvery, start, events, s)
    ensures SlotsFit(s.paid.workers, s.shared.slots)
  {
    LaunchedIsSound(expireEvery, start.preflight);
    LaunchedIsSound(expireEvery, start.paid);
    RunKeepsSlots(expireEvery, start, events, s);
  }

  /** Whatever the interleaving: from its grant until it frees it a delivery holds its slot under its own
      claim and the slot's current fence, and no two deliveries hold the same slot. */
  lemma SlotIsOwn(expireEvery: nat, start: System, events: seq<Event>, s: System, v: nat, w: nat)
    requires FreshSlots(expireEvery, start, events) && Reaches(expireEvery, start, events, s)
    requires v < |s.paid.workers| && w < |s.paid.workers| && Uses(s.paid.workers[v]) && Uses(s.paid.workers[w])
    ensures HasSlot(s.shared.slots, s.paid.workers[v].stage.slot, GeminiIdentity(s.paid.workers[v].item.id))
    ensures s.paid.workers[v].stage.slot.slot == s.paid.workers[w].stage.slot.slot ==> v == w
  {
    SlotsReached(expireEvery, start, events, s);
    var ws := s.paid.workers;
    assert HasSlot(s.shared.slots, ws[w].stage.slot, GeminiIdentity(ws[w].item.id));
    assert ws[v].item.id.role.Paid? && ws[w].item.id.role.Paid?;
  }

  /** A claimed slot is at every time that of a delivery in its Gemini stage, unless a delivery threw; so a
      paid drain that returned, over whatever queue, has left all eight slots free. */
  lemma SlotsAreReturned(expireEvery: nat, start: System, events: seq<Event>, s: System)
    requires FreshSlots(expireEvery, start, events) && Reaches(expireEvery, start, events, s)
    ensures forall i: nat :: i < |s.shared.slots| && s.shared.slots[i].claim.Some? ==>
      IsUsed(s.paid.workers, i) || Failed(s.paid.workers)
    ensures AllExited(s.paid) ==>
      |s.shared.slots| == G.SLOTS && forall i :: 0 <= i < G.SLOTS ==> s.shared.slots[i].claim.None?
  {
    SlotsReached(expireEvery, start, events, s);
  }
}
