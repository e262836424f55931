/** Provider calls and terminal effects against the copies of an id that were queued at the start, however
    often denials and rejections queue it again; and what a single worker adds to that. */
module DrainEffects {
  import opened Basics
  import opened Delivery
  import opened Drain
  import opened DrainRuns
  import opened DrainSystem

  /** How many of the items are deliveries of the id. */
  function Copies(items: seq<Item>, id: Id): nat {
    if items == [] then 0
    else Copies(items[..|items| - 1], id) + if items[|items| - 1].id == id then 1 else 0
  }

  /** Copies queued and not yet taken. */
  function Pending(p: Pool, id: Id): int { Copies(p.queue, id) - Copies(p.taken, id) }

  /** Deliveries in flight, and those of them that may still start Apify. */
  function LiveSet(ws: seq<Worker>, id: Id): set<nat> { set w: nat | w < |ws| && Live(ws[w], id) }

  predicate Waits(x: Worker, id: Id) { Live(x, id) && !OwnsApify(x, id) }

  function WaitSet(ws: seq<Worker>, id: Id): set<nat> { set w: nat | w < |ws| && Waits(ws[w], id) }

  /** Every copy still in play stands for one further Apify start at most, until one succeeds. */
  ghost predicate Frugal(p: Pool, id: Id, copies: nat) {
    var e := EntryOf(p, id);
    && e.apifyStarts <= copies
    && (e.provider != Some(Succeeded) ==> e.apifyStarts + |WaitSet(p.workers, id)| + Pending(p, id) <= copies)
  }

  /** A copy of a paid id still in play stands for one further terminal effect at most. */
  ghost predicate Paced(p: Pool, id: Id, copies: nat) {
    id.role.Paid? ==> EntryOf(p, id).effects + |LiveSet(p.workers, id)| + Pending(p, id) <= copies
  }

  ghost predicate Within(p: Pool, id: Id, copies: nat) { Frugal(p, id, copies) && Paced(p, id, copies) }

  function One(b: bool): nat { if b then 1 else 0 }

  lemma CopiesSnoc(items: seq<Item>, item: Item, id: Id)
    ensures Copies(items + [item], id) == Copies(items, id) + One(item.id == id)
  {
    assert (items + [item])[..|items|] == items;
  }

  lemma LiveUpdate(ws: seq<Worker>, w: nat, x: Worker, id: Id)
    requires w < |ws|
    ensures |LiveSet(ws[w := x], id)| == |LiveSet(ws, id)| - One(Live(ws[w], id)) + One(Live(x, id))
  {
    Exchanged(LiveSet(ws, id), LiveSet(ws[w := x], id), w);
  }

  lemma WaitUpdate(ws: seq<Worker>, w: nat, x: Worker, id: Id)
    requires w < |ws|
    ensures |WaitSet(ws[w := x], id)| == |WaitSet(ws, id)| - One(Waits(ws[w], id)) + One(Waits(x, id))
  {
    Exchanged(WaitSet(ws, id), WaitSet(ws[w := x], id), w);
  }

  /** A resumption starts Apify, or queues a retry, only at the price of the delivery's own turn. */
  lemma OneStartEach(expireEvery: nat, item: Item, e: Entry, stage: Stage, e': Entry, next: Next)
    requires Moves(expireEvery, item, e, stage, e', next) && !stage.Leaving?
    ensures next.Retry? ==> next.item.id == item.id
    ensures e.provider == Some(Succeeded) ==> e'.provider == Some(Succeeded)
    ensures e'.provider == Some(Succeeded) ==> e'.apifyStarts == e.apifyStarts
    ensures e'.provider != Some(Succeeded) ==>
      e'.apifyStarts + One(Waits(After(item, next), item.id)) + One(next.Retry?)
      <= e.apifyStarts + One(Waits(Busy(item, stage), item.id))
  {}

  lemma OneEffectEach(expireEvery: nat, item: Item, e: Entry, stage: Stage, e': Entry, next: Next)
    requires Moves(expireEvery, item, e, stage, e', next) && !stage.Leaving? && item.id.role.Paid?
    ensures e'.effects + One(Live(After(item, next), item.id)) + One(next.Retry?) <= e.effects + 1
  {}

  lemma TurnStaysWithin(p: Pool, w: nat, id: Id, copies: nat)
    requires CanStep(p, w) && Within(p, id, copies) && (p.workers[w].Busy? ==> p.workers[w].stage.Leaving?)
    ensures !p.workers[w].Busy? ==> Within(TakeNext(p, w), id, copies)
    ensures p.workers[w].Busy? ==> Within(Leave(p, w, p.workers[w].stage.threw), id, copies)
  {
    var x := p.workers[w];
    if x.Busy? {
      var left := p.workers[w := if x.stage.threw then Dead else Idle];
      LiveUpdate(p.workers, w, left[w], id);
      WaitUpdate(p.workers, w, left[w], id);
      assert LiveSet(Woken(left), id) == LiveSet(left, id) && WaitSet(Woken(left), id) == WaitSet(left, id);
    } else {
      LiveUpdate(p.workers, w, TakeNext(p, w).workers[w], id);
      WaitUpdate(p.workers, w, TakeNext(p, w).workers[w], id);
      if p.cursor < |p.queue| { CopiesSnoc(p.taken, p.queue[p.cursor], id); }
    }
  }

  lemma ProgressStaysWithin(expireEvery: nat, p: Pool, w: nat, o: Outcome, id: Id, copies: nat)
    requires Progresses(expireEvery, p, w, o) && Within(p, id, copies) && Pending(p, id) >= 0
    ensures Within(Progress(p, w, o), id, copies)
  {
    var x, p' := p.workers[w], Progress(p, w, o);
    var e := EntryOf(p, x.item.id);
    OneStartEach(expireEvery, x.item, e, x.stage, o.entry, o.next);
    LiveUpdate(p.workers, w, After(x.item, o.next), id);
    WaitUpdate(p.workers, w, After(x.item, o.next), id);
    if o.next.Retry? { CopiesSnoc(p.queue, o.next.item, id); } else { assert p'.queue == p.queue; }
    if id == x.item.id && id.role.Paid? { OneEffectEach(expireEvery, x.item, e, x.stage, o.entry, o.next); }
  }

  // ---- One worker alone ----

  /** The delivery may still have a terminal effect and has looked at the terminal set. */
  predicate Committed(x: Worker, id: Id) {
    Live(x, id) && !x.stage.Fresh?
    && (id.role.Paid? || x.stage.Acquiring? || x.stage.Denied? || x.stage.Admitted? || x.stage.CallingApify?)
  }

  predicate SoleFits(x: Worker, e: Entry, id: Id) {
    && (Committed(x, id) ==> e.effects == 0)
    && (At(x, id) && (x.stage.Acquiring? || x.stage.Admitted?) ==> e.provider == x.stage.seen)
  }

  /** With one worker nothing happens between what a delivery reads and what it does about it. */
  ghost predicate Sole(p: Pool, id: Id) {
    |p.workers| <= 1 ==>
      var e := EntryOf(p, id);
      e.effects <= 1 && e.erased == 0 && forall w :: 0 <= w < |p.workers| ==> SoleFits(p.workers[w], e, id)
  }

  lemma SoleMoves(expireEvery: nat, item: Item, e: Entry, stage: Stage, e': Entry, next: Next)
    requires Moves(expireEvery, item, e, stage, e', next) && !stage.Leaving?
    requires SoleFits(Busy(item, stage), e, item.id) && e.effects <= 1 && (e.terminal <==> e.effects >= 1)
    requires OwnsGemini(Busy(item, stage), item.id) || PastGemini(Busy(item, stage), item.id) ==> item.id.role.Paid?
    ensures SoleFits(After(item, next), e', item.id) && e'.effects <= 1 && e'.erased == e.erased
  {}

  lemma SoleStep(expireEvery: nat, p: Pool, w: nat, o: Outcome, id: Id)
    requires Progresses(expireEvery, p, w, o) && LedgersOk(expireEvery, p) && Sole(p, id)
    ensures Sole(Progress(p, w, o), id)
  {
    var x := p.workers[w];
    var e := EntryOf(p, x.item.id);
    assert LedgerOk(expireEvery, p.workers, e, x.item.id);
    assert GeminiFits(x, e, x.item.id);
    if |p.workers| <= 1 {
      assert SoleFits(x, EntryOf(p, id), id);
      if x.item.id == id { SoleMoves(expireEvery, x.item, e, x.stage, o.entry, o.next); }
    }
  }

  // ---- Every run ----

  ghost predicate Bounded(p: Pool, id: Id, copies: nat) { Within(p, id, copies) && Sole(p, id) }

  lemma StepStaysBounded(expireEvery: nat, p: Pool, w: nat, shared: Shared, random: Uuid, id: Id, copies: nat)
    requires CanStep(p, w) && PoolOk(p) && LedgersOk(expireEvery, p) && Bounded(p, id, copies)
    ensures Bounded(Step(expireEvery, p, w, shared, random).0, id, copies)
  {
    var x := p.workers[w];
    if !x.Busy? || x.stage.Leaving? {
      TurnStaysWithin(p, w, id, copies);
    } else {
      var e := EntryOf(p, x.item.id);
      var o := Resume(expireEvery, x.item, e, x.stage, shared, random);
      ResumeMoves(expireEvery, x.item, e, x.stage, shared, random);
      TakenWithin(p.queue, p.cursor, id);
      ProgressStaysWithin(expireEvery, p, w, o, id, copies);
      SoleStep(expireEvery, p, w, o, id);
    }
  }

  lemma {:induction false} RunStaysBounded(expireEvery: nat, s: System, events: seq<Event>, t: System, role: Role,
                                           id: Id, copies: nat)
    requires Sound(expireEvery, s) && Reaches(expireEvery, s, events, t) && Bounded(PoolOf(s, role), id, copies)
    ensures Bounded(PoolOf(t, role), id, copies)
    decreases events
  {
    if events != [] {
      var e := events[0];
      if e.Work? {
        StepKeeps(expireEvery, PoolOf(s, e.role), e.worker, s.shared, e.random);
        if e.role == role { StepStaysBounded(expireEvery, PoolOf(s, role), e.worker, s.shared, e.random, id, copies); }
      }
      RunStaysBounded(expireEvery, Advance(expireEvery, s, e), events[1..], t, role, id, copies);
    }
  }

  /** An id is called at Apify, and has terminal effects, at most as often as it was queued at the start;
      with a single worker at most once. */
  lemma NoMoreThanQueued(expireEvery: nat, start: System, events: seq<Event>, s: System, role: Role, id: Id)
    requires Begins(start) && Reaches(expireEvery, start, events, s)
    ensures var e := EntryOf(PoolOf(s, role), id);
      && e.apifyStarts <= Copies(PoolOf(start, role).queue, id)
      && e.effects <= Copies(PoolOf(start, role).queue, id)
      && (|PoolOf(start, role).workers| <= 1 ==> e.apifyStarts <= 1 && e.effects <= 1)
  {
    var p, q, copies := PoolOf(start, role), PoolOf(s, role), Copies(PoolOf(start, role).queue, id);
    LaunchedIsSound(expireEvery, start.preflight);
    LaunchedIsSound(expireEvery, start.paid);
    assert LiveSet(p.workers, id) == {} && WaitSet(p.workers, id) == {};
    RunStaysBounded(expireEvery, start, events, s, role, id, copies);
    Follows(expireEvery, start, events, s);
    assert LedgerOk(expireEvery, q.workers, EntryOf(q, id), id);
    InFlightCounts(q, id, copies);
  }

  // ---- What is queued again ----

  /** What was queued after the start is a later delivery, or one of an id on the expiry path. */
  ghost predicate LaterOnes(expireEvery: nat, p: Pool, n: nat) {
    n <= |p.queue| && forall i :: n <= i < |p.queue| ==> p.queue[i].attempt >= 1 || Eligible(expireEvery, p.queue[i].id)
  }

  lemma StepQueuesLater(expireEvery: nat, p: Pool, w: nat, shared: Shared, random: Uuid, n: nat)
    requires Inv(expireEvery, p) && CanStep(p, w) && LaterOnes(expireEvery, p, n)
    ensures LaterOnes(expireEvery, Step(expireEvery, p, w, shared, random).0, n)
  {
    var x := p.workers[w];
    if x.Busy? && !x.stage.Leaving? {
      var e := EntryOf(p, x.item.id);
      assert LedgerOk(expireEvery, p.workers, e, x.item.id);
      assert Marks(x, x.item.id) ==> e.expired;
      ResumeMoves(expireEvery, x.item, e, x.stage, shared, random);
    }
  }

  /** Over every run: an item queued again is never a first delivery, unless its id may take the expiry path. */
  lemma {:induction false} RetriesAreLater(expireEvery: nat, s: System, events: seq<Event>, t: System, role: Role,
                                           n: nat)
    requires Sound(expireEvery, s) && Reaches(expireEvery, s, events, t) && LaterOnes(expireEvery, PoolOf(s, role), n)
    ensures LaterOnes(expireEvery, PoolOf(t, role), n)
    decreases events
  {
    if events != [] {
      var e := events[0];
      EventIsSound(expireEvery, s, e);
      if e.Work? && e.role == role { StepQueuesLater(expireEvery, PoolOf(s, role), e.worker, s.shared, e.random, n); }
      RetriesAreLater(expireEvery, Advance(expireEvery, s, e), events[1..], t, role, n);
    }
  }

  lemma InFlightCounts(p: Pool, id: Id, copies: nat)
    requires Bounded(p, id, copies) && PoolOk(p) && EffectsOk(p.workers, EntryOf(p, id), id)
    ensures EntryOf(p, id).effects <= copies
  {
    if id.role.Paid? { TakenWithin(p.queue, p.cursor, id); }
  }

  lemma {:induction false} TakenWithin(items: seq<Item>, n: nat, id: Id)
    requires n <= |items|
    ensures Copies(items[..n], id) <= Copies(items, id)
    ensures Copies(items[..n], id) < Copies(items, id) ==> exists i :: n <= i < |items| && items[i].id == id
    decreases |items|
  {
    if n < |items| {
      var shorter := items[..|items| - 1];
      assert shorter[..n] == items[..n];
      TakenWithin(shorter, n, id);
      if items[|items| - 1].id != id && Copies(items[..n], id) < Copies(items, id) {
        var i :| n <= i < |shorter| && shorter[i].id == id;
        assert items[i].id == id;
      }
    } else {
      assert items[..n] == items;
    }
  }
}
