/** What every interleaving of the drains keeps: no accepted id is lost, no wake-up is lost, the
    ledgers stay exact, Gemini runs at most once per id and Apify at most twice. */
module DrainRuns {
  import opened Basics
  import opened Delivery
  import opened Drain

  // ---- The invariants of one id ----

  /** Somebody will still record the id's Apify run, or an exception took that away. */
  ghost predicate Covered(ws: seq<Worker>, id: Id) { ApifyOwned(ws, id) || Failed(ws) }

  predicate ApifyFits(x: Worker, e: Entry, id: Id, covered: bool) {
    id.role.Preflight? ==>
      (Relies(x, id) ==> e.terminal || covered) && (OwnsApify(x, id) ==> Calls(x, id) || e.terminal)
  }

  /** A running provider mark has an owner in flight; a preflight delivery that relies on somebody
      else's Apify run has a terminal id or such an owner behind it. An exception may break this. */
  ghost predicate ApifyOk(ws: seq<Worker>, e: Entry, id: Id) {
    && (e.provider == Some(Running) ==> Covered(ws, id))
    && (id.role.Preflight? && e.provider == Some(Succeeded) ==> e.terminal)
    && (forall w :: 0 <= w < |ws| ==> ApifyFits(ws[w], e, id, Covered(ws, id)))
  }

  /** Nothing that presupposes an Apify run happens without one. */
  ghost predicate StartedOk(ws: seq<Worker>, e: Entry, id: Id) {
    && (e.provider.Some? || e.gemini.Some? || e.terminal ==> e.apifyStarts >= 1)
    && (forall w :: 0 <= w < |ws| && (OwnsApify(ws[w], id) || Relies(ws[w], id)) ==> e.apifyStarts >= 1)
  }

  predicate GeminiFits(x: Worker, e: Entry, id: Id) {
    && (OwnsGemini(x, id) ==>
          && id.role.Paid? && e.gemini == Some(Running)
          && e.geminiStarts == (if x.stage.CallingGemini? then 1 else 0))
    && (PastGemini(x, id) ==> id.role.Paid? && e.gemini == Some(Succeeded))
  }

  /** A running Gemini mark has exactly one owner, which makes the only Gemini call. */
  ghost predicate GeminiOk(ws: seq<Worker>, e: Entry, id: Id) {
    && (e.gemini == Some(Running) ==> GeminiOwned(ws, id))
    && (forall w :: 0 <= w < |ws| ==> GeminiFits(ws[w], e, id))
    && (forall v, w :: 0 <= v < |ws| && 0 <= w < |ws| && OwnsGemini(ws[v], id) && OwnsGemini(ws[w], id) ==> v == w)
    && (e.gemini.None? ==> e.geminiStarts == 0)
    && (e.gemini == Some(Succeeded) ==> e.geminiStarts == 1)
    && (id.role.Paid? && e.terminal ==> e.gemini == Some(Succeeded))
    && (id.role.Preflight? ==> e.gemini.None?)
  }

  lemma GeminiCounts(ws: seq<Worker>, e: Entry, id: Id)
    requires GeminiOk(ws, e, id)
    ensures e.geminiStarts <= 1 && (id.role.Preflight? ==> e.geminiStarts == 0)
  {
    assert e.gemini.None? || e.gemini.value.Running? || e.gemini.value.Succeeded?;
    if e.gemini == Some(Running) {
      var w :| 0 <= w < |ws| && OwnsGemini(ws[w], id);
      assert GeminiFits(ws[w], e, id);
    }
  }

  /** At most one delivery of an id ever reaches the erasing step of the expiry path. */
  ghost predicate ExpiryOk(expireEvery: nat, ws: seq<Worker>, e: Entry, id: Id) {
    && (e.erased >= 1 || e.expired ==> Eligible(expireEvery, id))
    && (e.erased >= 1 ==> e.expired) && e.erased <= 1
    && (forall w :: 0 <= w < |ws| && Marks(ws[w], id) ==> e.expired && e.erased == 0)
    && (forall v, w :: 0 <= v < |ws| && 0 <= w < |ws| && Marks(ws[v], id) && Marks(ws[w], id) ==> v == w)
    && e.apifyStarts <= e.erased + if e.provider.Some? then 1 else 0
  }

  /** An id is terminal exactly when it has a terminal effect, and every finished preflight Apify
      call is one. */
  ghost predicate EffectsOk(ws: seq<Worker>, e: Entry, id: Id) {
    && (e.terminal <==> e.effects >= 1)
    && (id.role.Preflight? ==> e.effects + |Callers(ws, id)| == e.apifyStarts)
  }

  ghost predicate LedgerOk(expireEvery: nat, ws: seq<Worker>, e: Entry, id: Id) {
    ApifyOk(ws, e, id) && StartedOk(ws, e, id) && GeminiOk(ws, e, id)
    && ExpiryOk(expireEvery, ws, e, id) && EffectsOk(ws, e, id)
  }

  // ---- Workers that do not concern an id ----

  predicate Concerns(x: Worker, id: Id) { Live(x, id) && !x.stage.Fresh? }

  /** Workers may change as long as those concerning the id stay and no exception is forgotten. */
  ghost predicate Unconcerned(ws: seq<Worker>, ws': seq<Worker>, id: Id) {
    && |ws'| == |ws| && (Failed(ws) ==> Failed(ws'))
    && (forall i :: 0 <= i < |ws| ==> (Concerns(ws[i], id) || Concerns(ws'[i], id)) ==> ws[i] == ws'[i])
  }

  lemma FrameKeepsApify(ws: seq<Worker>, ws': seq<Worker>, e: Entry, id: Id)
    requires ApifyOk(ws, e, id) && Unconcerned(ws, ws', id)
    ensures ApifyOk(ws', e, id)
  {
    if ApifyOwned(ws, id) {
      var w :| 0 <= w < |ws| && OwnsApify(ws[w], id);
      assert OwnsApify(ws'[w], id);
    }
  }

  lemma FrameKeepsGemini(ws: seq<Worker>, ws': seq<Worker>, e: Entry, id: Id)
    requires GeminiOk(ws, e, id) && Unconcerned(ws, ws', id)
    ensures GeminiOk(ws', e, id)
  {
    if GeminiOwned(ws, id) {
      var w :| 0 <= w < |ws| && OwnsGemini(ws[w], id);
      assert OwnsGemini(ws'[w], id);
    }
  }

  lemma FrameKeepsOthers(expireEvery: nat, ws: seq<Worker>, ws': seq<Worker>, e: Entry, id: Id)
    requires StartedOk(ws, e, id) && ExpiryOk(expireEvery, ws, e, id) && EffectsOk(ws, e, id)
    requires Unconcerned(ws, ws', id)
    ensures StartedOk(ws', e, id) && ExpiryOk(expireEvery, ws', e, id) && EffectsOk(ws', e, id)
  {
    assert Callers(ws', id) == Callers(ws, id);
  }

  lemma FrameKeepsLedger(expireEvery: nat, ws: seq<Worker>, ws': seq<Worker>, e: Entry, id: Id)
    requires LedgerOk(expireEvery, ws, e, id) && Unconcerned(ws, ws', id)
    ensures LedgerOk(expireEvery, ws', e, id)
  {
    FrameKeepsApify(ws, ws', e, id);
    FrameKeepsGemini(ws, ws', e, id);
    FrameKeepsOthers(expireEvery, ws, ws', e, id);
  }

  // ---- What a resumption can do to its own entry, whatever the shared stores hold ----

  predicate Moves(expireEvery: nat, item: Item, e: Entry, stage: Stage, e': Entry, next: Next) {
    match stage
    case Fresh =>
      if e.terminal then e' == e && next.Finish?
      else
        var marker := ShouldExpire(expireEvery, item, e);
        && e' == (if marker then e.(expired := true) else e)
        && if e.provider != Some(Succeeded) then next == Go(Acquiring(e.provider, marker))
           else next == if marker then Throw else Go(Returned)
    case Acquiring(seen, marker) =>
      e' == e
      && (next.Throw? || next == Go(Denied(marker))
          || (next.Go? && next.stage.Admitted? && next.stage.seen == seen && next.stage.marker == marker))
    case Denied(marker) =>
      e' == (if marker then e.(expired := false) else e) && next == if marker then Retry(item) else Again(item)
    case Admitted(lease, seen, marker) =>
      if seen == Some(Running) then e' == e && next == if marker then Throw else Go(Returned)
      else if marker then
        (e' == e && next.Throw?) || (e' == Erased(e) && next == Go(Releasing(lease, Reject)))
      else if e.provider.Some? then e' == e && next == Go(Returned)
      else
        e' == e.(provider := Some(Running), apifyStarts := e.apifyStarts + 1) && next == Go(CallingApify(lease))
    case CallingApify(lease) =>
      e' == (if item.id.role.Preflight? then Terminalized(e) else e) && next == Go(Releasing(lease, Complete))
    case Releasing(lease, goal) =>
      e' == e && (next == Go(Settled(goal)) || next == Go(Recovering(lease, goal)) || next.Throw?)
    case Recovering(lease, goal) => e' == e && (next == Go(Resolving(lease, goal)) || next.Throw?)
    case Resolving(lease, goal) => e' == e && (next == Go(Settled(goal)) || next.Throw?)
    case Settled(goal) =>
      if goal.Reject? then e' == e && next == Retry(item.(attempt := 1))
      else e' == e.(provider := Some(Succeeded)) && next == Go(Returned)
    case Returned =>
      if item.id.role.Preflight? then e' == e && next.Finish?
      else if e.provider == Some(Running) then e' == e && next == Again(item)
      else if e.gemini == Some(Succeeded) then e' == Terminalized(e) && next.Finish?
      else if e.gemini == Some(Running) then e' == e && next.Finish?
      else
        e' == e.(gemini := Some(Running))
        && next.Go? && (next.stage.GeminiFull? || next.stage.GeminiAdmitting? || next.stage.GeminiAborting?)
    case GeminiFull => e' == e.(gemini := Cleared(e.gemini)) && next == Again(item)
    case GeminiAdmitting(_) =>
      e' == e && next.Go? && (next.stage.GeminiAdmitted? || next.stage.GeminiDenied?)
    case GeminiDenied(_) => e' == e && next == Go(GeminiAborting)
    case GeminiAborting => e' == e.(gemini := Cleared(e.gemini)) && next.Throw?
    case GeminiAdmitted(slot, lease) =>
      e' == e.(geminiStarts := e.geminiStarts + 1) && next == Go(CallingGemini(slot, lease))
    case CallingGemini(slot, lease) =>
      e' == e.(gemini := Some(Succeeded)) && next == Go(GeminiReleasing(slot, lease))
    case GeminiReleasing(slot, lease) =>
      e' == e && (next == Go(GeminiFreeing(slot)) || next == Go(GeminiRecovering(slot, lease)) || next.Throw?)
    case GeminiRecovering(slot, lease) => e' == e && (next == Go(GeminiResolving(slot, lease)) || next.Throw?)
    case GeminiResolving(slot, lease) => e' == e && (next == Go(GeminiFreeing(slot)) || next.Throw?)
    case GeminiFreeing(_) => e' == e && (next == Go(GeminiDone) || next.Throw?)
    case GeminiDone => e' == Terminalized(e) && next.Finish?
    case Leaving(threw) => e' == e && next == if threw then Throw else Finish
  }

  lemma ResumeMoves(expireEvery: nat, item: Item, e: Entry, stage: Stage, shared: Shared, random: Uuid)
    ensures var o := Resume(expireEvery, item, e, stage, shared, random);
      Moves(expireEvery, item, e, stage, o.entry, o.next)
  {}

  // ---- One resumption, seen from its own id ----

  predicate Resumed(expireEvery: nat, ws: seq<Worker>, w: nat, e: Entry, e': Entry, next: Next) {
    w < |ws| && ws[w].Busy? && !ws[w].stage.Leaving?
    && Moves(expireEvery, ws[w].item, e, ws[w].stage, e', next)
  }

  lemma FailedStays(ws: seq<Worker>, w: nat, x: Worker)
    requires w < |ws| && !Threw(ws[w]) && Failed(ws)
    ensures Failed(ws[w := x])
  {
    var v :| 0 <= v < |ws| && Threw(ws[v]);
    assert Threw(ws[w := x][v]);
  }

  lemma CoverStays(expireEvery: nat, ws: seq<Worker>, w: nat, e: Entry, e': Entry, next: Next)
    requires Resumed(expireEvery, ws, w, e, e', next)
    ensures var id, ws' := ws[w].item.id, ws[w := After(ws[w].item, next)];
      && (OwnsApify(ws'[w], id) || Threw(ws'[w]) ==> Covered(ws', id))
      && (Covered(ws, id) ==> Covered(ws', id) || (OwnsApify(ws[w], id) && ws[w].stage.Settled?))
  {
    var id, ws' := ws[w].item.id, ws[w := After(ws[w].item, next)];
    if Failed(ws) { FailedStays(ws, w, ws'[w]); }
    if Threw(ws'[w]) { assert Failed(ws'); }
    if OwnsApify(ws'[w], id) { assert ApifyOwned(ws', id); }
    if ApifyOwned(ws, id) {
      var v :| 0 <= v < |ws| && OwnsApify(ws[v], id);
      if v != w { assert OwnsApify(ws'[v], id); }
    }
  }

  lemma ApifyFitsStep(expireEvery: nat, item: Item, stage: Stage, e: Entry, e': Entry, next: Next,
                      covered: bool, covered': bool)
    requires Moves(expireEvery, item, e, stage, e', next) && !stage.Leaving?
    requires ApifyFits(Busy(item, stage), e, item.id, covered) && GeminiFits(Busy(item, stage), e, item.id)
    requires OwnsApify(After(item, next), item.id) || next.Throw? ==> covered'
    requires covered ==> covered' || (OwnsApify(Busy(item, stage), item.id) && stage.Settled?)
    requires e.provider == Some(Running) ==> covered
    requires item.id.role.Preflight? && e.provider == Some(Succeeded) ==> e.terminal
    requires e.terminal <==> e.effects >= 1
    ensures ApifyFits(After(item, next), e', item.id, covered') && (e.terminal ==> e'.terminal)
    ensures e'.provider == Some(Running) ==> covered'
    ensures item.id.role.Preflight? && e'.provider == Some(Succeeded) ==> e'.terminal
    ensures item.id.role.Preflight? && covered && !covered' ==> e'.terminal
  {
    assert e.provider.None? || e.provider.value.Running? || e.provider.value.Succeeded?;
  }

  lemma ApifyStep(expireEvery: nat, ws: seq<Worker>, w: nat, e: Entry, e': Entry, next: Next)
    requires Resumed(expireEvery, ws, w, e, e', next)
    requires ApifyOk(ws, e, ws[w].item.id) && GeminiOk(ws, e, ws[w].item.id) && EffectsOk(ws, e, ws[w].item.id)
    ensures ApifyOk(ws[w := After(ws[w].item, next)], e', ws[w].item.id)
  {
    var id, ws' := ws[w].item.id, ws[w := After(ws[w].item, next)];
    var covered, covered' := Covered(ws, id), Covered(ws', id);
    CoverStays(expireEvery, ws, w, e, e', next);
    assert ApifyFits(ws[w], e, id, covered) && GeminiFits(ws[w], e, id);
    ApifyFitsStep(expireEvery, ws[w].item, ws[w].stage, e, e', next, covered, covered');
    forall v | 0 <= v < |ws'| ensures ApifyFits(ws'[v], e', id, covered') {
      assert v != w ==> ApifyFits(ws[v], e, id, covered);
    }
  }

  lemma StartedStep(expireEvery: nat, ws: seq<Worker>, w: nat, e: Entry, e': Entry, next: Next)
    requires Resumed(expireEvery, ws, w, e, e', next)
    requires StartedOk(ws, e, ws[w].item.id) && GeminiOk(ws, e, ws[w].item.id)
    ensures StartedOk(ws[w := After(ws[w].item, next)], e', ws[w].item.id)
  {}

  lemma GeminiOwner(expireEvery: nat, ws: seq<Worker>, w: nat, e: Entry, e': Entry, next: Next)
    requires Resumed(expireEvery, ws, w, e, e', next) && GeminiOk(ws, e, ws[w].item.id)
    ensures e'.gemini == Some(Running) ==> GeminiOwned(ws[w := After(ws[w].item, next)], ws[w].item.id)
  {
    var id, ws' := ws[w].item.id, ws[w := After(ws[w].item, next)];
    assert GeminiFits(ws[w], e, id);
    if OwnsGemini(ws'[w], id) {
      assert GeminiOwned(ws', id);
    } else if GeminiOwned(ws, id) {
      var v :| 0 <= v < |ws| && OwnsGemini(ws[v], id);
      assert OwnsGemini(ws[w], id) ==> v == w;
      assert v != w ==> OwnsGemini(ws'[v], id);
    }
  }

  lemma GeminiStep(expireEvery: nat, ws: seq<Worker>, w: nat, e: Entry, e': Entry, next: Next)
    requires Resumed(expireEvery, ws, w, e, e', next)
    requires GeminiOk(ws, e, ws[w].item.id)
    ensures GeminiOk(ws[w := After(ws[w].item, next)], e', ws[w].item.id)
  {
    var id, ws' := ws[w].item.id, ws[w := After(ws[w].item, next)];
    GeminiOwner(expireEvery, ws, w, e, e', next);
    assert GeminiFits(ws[w], e, id);
    assert e.gemini.None? || e.gemini.value.Running? || e.gemini.value.Succeeded?;
    forall v | 0 <= v < |ws'| ensures GeminiFits(ws'[v], e', id) {
      assert v != w ==> GeminiFits(ws[v], e, id);
    }
  }

  lemma ExpiryStep(expireEvery: nat, ws: seq<Worker>, w: nat, e: Entry, e': Entry, next: Next)
    requires Resumed(expireEvery, ws, w, e, e', next)
    requires ExpiryOk(expireEvery, ws, e, ws[w].item.id)
    ensures ExpiryOk(expireEvery, ws[w := After(ws[w].item, next)], e', ws[w].item.id)
  {}

  /** Two sets of workers that differ in one worker at most. */
  lemma Exchanged(before: set<nat>, after: set<nat>, w: nat)
    requires before - {w} == after - {w}
    ensures |after| == |before| - (if w in before then 1 else 0) + if w in after then 1 else 0
  {
    assert before == (before - {w}) + if w in before then {w} else {};
    assert after == (before - {w}) + if w in after then {w} else {};
  }

  lemma CallersUpdate(ws: seq<Worker>, w: nat, x: Worker, id: Id)
    requires w < |ws|
    ensures |Callers(ws[w := x], id)|
         == |Callers(ws, id)| - (if Calls(ws[w], id) then 1 else 0) + if Calls(x, id) then 1 else 0
  {
    Exchanged(Callers(ws, id), Callers(ws[w := x], id), w);
  }

  lemma EffectsStep(expireEvery: nat, ws: seq<Worker>, w: nat, e: Entry, e': Entry, next: Next)
    requires Resumed(expireEvery, ws, w, e, e', next)
    requires EffectsOk(ws, e, ws[w].item.id) && GeminiOk(ws, e, ws[w].item.id)
    ensures EffectsOk(ws[w := After(ws[w].item, next)], e', ws[w].item.id)
  {
    CallersUpdate(ws, w, After(ws[w].item, next), ws[w].item.id);
    assert OwnsGemini(ws[w], ws[w].item.id) || PastGemini(ws[w], ws[w].item.id) ==> ws[w].item.id.role.Paid?;
  }

  lemma LedgerStep(expireEvery: nat, ws: seq<Worker>, w: nat, e: Entry, e': Entry, next: Next)
    requires Resumed(expireEvery, ws, w, e, e', next)
    requires LedgerOk(expireEvery, ws, e, ws[w].item.id)
    ensures LedgerOk(expireEvery, ws[w := After(ws[w].item, next)], e', ws[w].item.id)
  {
    ApifyStep(expireEvery, ws, w, e, e', next);
    StartedStep(expireEvery, ws, w, e, e', next);
    GeminiStep(expireEvery, ws, w, e, e', next);
    ExpiryStep(expireEvery, ws, w, e, e', next);
    EffectsStep(expireEvery, ws, w, e, e', next);
  }

  // ---- The invariant of a pool ----

  ghost predicate WorkerFits(p: Pool, x: Worker) {
    && (x == Parked(false) ==> p.active > 0)
    && (x.Exited? ==> p.active == 0 && p.cursor == |p.queue|)
    && (x.Busy? ==> Known(p.queue, x.item.id))
  }

  /** The cursor stays within the queue and the positions before it were each taken once, in order;
      `active` counts the busy workers; nobody sleeps while nobody works; nobody leaves early. */
  ghost predicate PoolOk(p: Pool) {
    && p.cursor <= |p.queue| && p.taken == p.queue[..p.cursor]
    && p.active == |BusySet(p.workers)|
    && (forall w :: 0 <= w < |p.workers| ==> WorkerFits(p, p.workers[w]))
    && (forall id :: id in p.ledger ==> Known(p.queue, id))
  }

  /** An id is terminal, or some delivery of it is queued or in flight, or a delivery threw. */
  ghost predicate Accounted(p: Pool, id: Id) {
    EntryOf(p, id).terminal || Queued(p, id) || InFlight(p.workers, id) || Failed(p.workers)
  }

  ghost predicate AllAccounted(p: Pool) { forall id :: Known(p.queue, id) ==> Accounted(p, id) }

  ghost predicate LedgersOk(expireEvery: nat, p: Pool) {
    forall id :: LedgerOk(expireEvery, p.workers, EntryOf(p, id), id)
  }

  ghost predicate Inv(expireEvery: nat, p: Pool) {
    PoolOk(p) && AllAccounted(p) && LedgersOk(expireEvery, p)
  }

  lemma BusyUpdate(ws: seq<Worker>, w: nat, x: Worker)
    requires w < |ws|
    ensures |BusySet(ws[w := x])| == |BusySet(ws)| - (if ws[w].Busy? then 1 else 0) + if x.Busy? then 1 else 0
  {
    Exchanged(BusySet(ws), BusySet(ws[w := x]), w);
  }

  // ---- Taking and leaving ----

  ghost predicate FailuresStay(ws: seq<Worker>, ws': seq<Worker>) { Failed(ws) ==> Failed(ws') }

  lemma LedgersFrame(expireEvery: nat, p: Pool, p': Pool)
    requires LedgersOk(expireEvery, p) && p'.ledger == p.ledger
    requires forall id :: Unconcerned(p.workers, p'.workers, id)
    ensures LedgersOk(expireEvery, p')
  {
    forall id ensures LedgerOk(expireEvery, p'.workers, EntryOf(p', id), id) {
      FrameKeepsLedger(expireEvery, p.workers, p'.workers, EntryOf(p, id), id);
    }
  }

  lemma TakeKeepsPool(p: Pool, w: nat)
    requires PoolOk(p) && CanStep(p, w) && !p.workers[w].Busy?
    ensures PoolOk(TakeNext(p, w))
  {
    var p' := TakeNext(p, w);
    BusyUpdate(p.workers, w, p'.workers[w]);
    forall v | 0 <= v < |p'.workers| ensures WorkerFits(p', p'.workers[v]) {
      assert WorkerFits(p, p.workers[v]);
      if p.cursor < |p.queue| { assert p.queue[p.cursor].id == p'.queue[p.cursor].id; }
    }
  }

  lemma TakeKeepsAccounts(p: Pool, w: nat)
    requires CanStep(p, w) && !p.workers[w].Busy?
    requires AllAccounted(p) && FailuresStay(p.workers, TakeNext(p, w).workers)
    ensures AllAccounted(TakeNext(p, w))
  {
    var p' := TakeNext(p, w);
    forall id | Known(p'.queue, id) ensures Accounted(p', id) {
      assert Accounted(p, id);
      if InFlight(p.workers, id) {
        var v :| 0 <= v < |p.workers| && Live(p.workers[v], id);
        assert Live(p'.workers[v], id);
      } else if Queued(p, id) {
        var i :| p.cursor <= i < |p.queue| && p.queue[i].id == id;
        if i == p.cursor { assert Live(p'.workers[w], id); } else { assert p'.queue[i].id == id; }
      }
    }
  }

  lemma TakeKeeps(expireEvery: nat, p: Pool, w: nat)
    requires Inv(expireEvery, p) && CanStep(p, w) && !p.workers[w].Busy?
    ensures Inv(expireEvery, TakeNext(p, w))
  {
    var p' := TakeNext(p, w);
    if Failed(p.workers) { FailedStays(p.workers, w, p'.workers[w]); }
    TakeKeepsPool(p, w);
    TakeKeepsAccounts(p, w);
    LedgersFrame(expireEvery, p, p');
  }

  lemma LeaveKeepsPool(p: Pool, w: nat, threw: bool)
    requires PoolOk(p) && w < |p.workers| && p.workers[w].Busy?
    ensures PoolOk(Leave(p, w, threw))
  {
    var p', left := Leave(p, w, threw), p.workers[w := if threw then Dead else Idle];
    BusyUpdate(p.workers, w, left[w]);
    assert BusySet(Woken(left)) == BusySet(left);
    assert w in BusySet(p.workers);
    forall v | 0 <= v < |p'.workers| ensures WorkerFits(p', p'.workers[v]) {
      assert WorkerFits(p, p.workers[v]);
    }
  }

  lemma LeaveKeepsAccounts(p: Pool, w: nat, threw: bool)
    requires w < |p.workers| && p.workers[w].Busy? && p.workers[w].stage.Leaving?
    requires AllAccounted(p) && FailuresStay(p.workers, Leave(p, w, threw).workers)
    ensures AllAccounted(Leave(p, w, threw))
  {
    var p' := Leave(p, w, threw);
    forall id | Known(p'.queue, id) ensures Accounted(p', id) {
      assert Accounted(p, id);
      if InFlight(p.workers, id) {
        var v :| 0 <= v < |p.workers| && Live(p.workers[v], id);
        assert Live(p'.workers[v], id);
      } else if Queued(p, id) {
        assert Queued(p', id);
      }
    }
  }

  lemma LeaveKeeps(expireEvery: nat, p: Pool, w: nat)
    requires Inv(expireEvery, p) && CanStep(p, w) && p.workers[w].Busy? && p.workers[w].stage.Leaving?
    ensures Inv(expireEvery, Leave(p, w, p.workers[w].stage.threw))
  {
    var threw := p.workers[w].stage.threw;
    var p' := Leave(p, w, threw);
    if Failed(p.workers) {
      var v :| 0 <= v < |p.workers| && Threw(p.workers[v]);
      assert Threw(p'.workers[v]);
    }
    LeaveKeepsPool(p, w, threw);
    LeaveKeepsAccounts(p, w, threw);
    LedgersFrame(expireEvery, p, p');
  }

  // ---- Resuming ----

  ghost predicate Progresses(expireEvery: nat, p: Pool, w: nat, o: Outcome) {
    w < |p.workers| && p.workers[w].Busy?
    && Resumed(expireEvery, p.workers, w, EntryOf(p, p.workers[w].item.id), o.entry, o.next)
  }

  lemma ProgressKeepsPool(expireEvery: nat, p: Pool, w: nat, o: Outcome)
    requires PoolOk(p) && Progresses(expireEvery, p, w, o)
    ensures PoolOk(Progress(p, w, o))
  {
    var p', id := Progress(p, w, o), p.workers[w].item.id;
    BusyUpdate(p.workers, w, p'.workers[w]);
    assert w in BusySet(p.workers) && p.active > 0;
    assert WorkerFits(p, p.workers[w]);
    forall any | Known(p.queue, any) ensures Known(p'.queue, any) {
      var i :| 0 <= i < |p.queue| && p.queue[i].id == any;
      assert p'.queue[i].id == any;
    }
    forall v | 0 <= v < |p'.workers| ensures WorkerFits(p', p'.workers[v]) {
      assert WorkerFits(p, p.workers[v]);
    }
  }

  lemma ProgressKeepsLedgers(expireEvery: nat, p: Pool, w: nat, o: Outcome)
    requires LedgersOk(expireEvery, p) && Progresses(expireEvery, p, w, o)
    ensures LedgersOk(expireEvery, Progress(p, w, o)) && FailuresStay(p.workers, Progress(p, w, o).workers)
  {
    var p', own := Progress(p, w, o), p.workers[w].item.id;
    if Failed(p.workers) { FailedStays(p.workers, w, p'.workers[w]); }
    forall id ensures LedgerOk(expireEvery, p'.workers, EntryOf(p', id), id) {
      if id == own {
        LedgerStep(expireEvery, p.workers, w, EntryOf(p, id), o.entry, o.next);
      } else {
        FrameKeepsLedger(expireEvery, p.workers, p'.workers, EntryOf(p, id), id);
      }
    }
  }

  /** A delivery that finishes without a retry leaves its id terminal or somebody else's. */
  lemma FinishIsCovered(expireEvery: nat, ws: seq<Worker>, w: nat, e: Entry, e': Entry, next: Next)
    requires Resumed(expireEvery, ws, w, e, e', next) && next.Finish?
    requires LedgerOk(expireEvery, ws, e, ws[w].item.id)
    ensures e'.terminal || Failed(ws) || exists v :: 0 <= v < |ws| && v != w && Live(ws[v], ws[w].item.id)
  {
    var id := ws[w].item.id;
    assert ApifyFits(ws[w], e, id, Covered(ws, id));
    if ws[w].stage.Returned? {
      if id.role.Preflight? && ApifyOwned(ws, id) {
        var v :| 0 <= v < |ws| && OwnsApify(ws[v], id);
        assert Live(ws[v], id);
      } else if id.role.Paid? && e.gemini == Some(Running) {
        var v :| 0 <= v < |ws| && OwnsGemini(ws[v], id);
        assert Live(ws[v], id);
      }
    }
  }

  lemma ProgressKeepsAccounts(expireEvery: nat, p: Pool, w: nat, o: Outcome)
    requires PoolOk(p) && AllAccounted(p) && LedgersOk(expireEvery, p) && Progresses(expireEvery, p, w, o)
    requires FailuresStay(p.workers, Progress(p, w, o).workers)
    ensures AllAccounted(Progress(p, w, o))
  {
    var p', own := Progress(p, w, o), p.workers[w].item.id;
    forall id | Known(p'.queue, id) ensures Accounted(p', id) {
      if id == own {
        AccountedOwn(expireEvery, p, w, o);
      } else {
        AccountedOther(expireEvery, p, w, o, id);
      }
    }
  }

  lemma AccountedOther(expireEvery: nat, p: Pool, w: nat, o: Outcome, id: Id)
    requires PoolOk(p) && AllAccounted(p) && Progresses(expireEvery, p, w, o) && p.workers[w].item.id != id
    requires FailuresStay(p.workers, Progress(p, w, o).workers) && Known(Progress(p, w, o).queue, id)
    ensures Accounted(Progress(p, w, o), id)
  {
    var p' := Progress(p, w, o);
    var k :| 0 <= k < |p'.queue| && p'.queue[k].id == id;
    assert k < |p.queue| && p.queue[k].id == id;
    assert Known(p.queue, id) && Accounted(p, id);
    if InFlight(p.workers, id) {
      var v :| 0 <= v < |p.workers| && Live(p.workers[v], id);
      assert Live(p'.workers[v], id);
    } else if Queued(p, id) {
      var i :| p.cursor <= i < |p.queue| && p.queue[i].id == id;
      assert p'.queue[i].id == id;
    }
  }

  lemma AccountedOwn(expireEvery: nat, p: Pool, w: nat, o: Outcome)
    requires PoolOk(p) && LedgersOk(expireEvery, p) && Progresses(expireEvery, p, w, o)
    requires FailuresStay(p.workers, Progress(p, w, o).workers)
    ensures Accounted(Progress(p, w, o), p.workers[w].item.id)
  {
    var p', id := Progress(p, w, o), p.workers[w].item.id;
    match o.next
    case Go(stage) => assert Live(p'.workers[w], id);
    case Retry(item) => assert p'.queue[|p.queue|].id == id;
    case Throw => assert Threw(p'.workers[w]);
    case Finish =>
      FinishIsCovered(expireEvery, p.workers, w, EntryOf(p, id), o.entry, o.next);
      if v :| 0 <= v < |p.workers| && v != w && Live(p.workers[v], id) {
        assert Live(p'.workers[v], id);
      }
  }

  lemma StepKeeps(expireEvery: nat, p: Pool, w: nat, shared: Shared, random: Uuid)
    requires Inv(expireEvery, p) && CanStep(p, w)
    ensures Inv(expireEvery, Step(expireEvery, p, w, shared, random).0)
  {
    var x := p.workers[w];
    if !x.Busy? {
      TakeKeeps(expireEvery, p, w);
    } else if x.stage.Leaving? {
      LeaveKeeps(expireEvery, p, w);
    } else {
      var e := EntryOf(p, x.item.id);
      var o := Resume(expireEvery, x.item, e, x.stage, shared, random);
      ResumeMoves(expireEvery, x.item, e, x.stage, shared, random);
      ProgressKeepsPool(expireEvery, p, w, o);
      ProgressKeepsLedgers(expireEvery, p, w, o);
      ProgressKeepsAccounts(expireEvery, p, w, o);
    }
  }
}
