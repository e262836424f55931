/** The worker pool of the capacity harness: one drain per role over a growing queue, its workers
    interleaved in any order with each other, with the other role's workers and with everything
    else that uses the shared stores. */
module Drain {
  import opened Basics
  import opened Delivery

  /** A parked worker waits on its own promise until some finishing worker resolves it. `Exited`
      workers returned normally; `Dead` ones were ended by an exception of their delivery. */
  datatype Worker = Idle | Parked(woken: bool) | Busy(item: Item, stage: Stage) | Exited | Dead

  /** Ids carry their role, so the ledger entries of a role belong to its drain alone.
      `taken` only observes: it lists the items in the order in which workers took them. */
  datatype Pool = Pool(queue: seq<Item>, cursor: nat, active: int, workers: seq<Worker>,
                       ledger: map<Id, Entry>, taken: seq<Item>)

  function EntryOf(p: Pool, id: Id): Entry {
    if id in p.ledger then p.ledger[id] else BLANK
  }

  function Launched(queue: seq<Item>, concurrency: nat): Pool {
    Pool(queue, 0, 0, seq(concurrency, _ => Idle), map[], [])
  }

  // ---- One turn of one worker ----

  predicate CanStep(p: Pool, w: nat) {
    w < |p.workers| && (p.workers[w].Idle? || p.workers[w] == Parked(true) || p.workers[w].Busy?)
  }

  function TakeNext(p: Pool, w: nat): Pool
    requires w < |p.workers|
  {
    if p.cursor < |p.queue| then
      var item := p.queue[p.cursor];
      p.(cursor := p.cursor + 1, active := p.active + 1,
         workers := p.workers[w := Busy(item, Fresh)], taken := p.taken + [item])
    else p.(workers := p.workers[w := if p.active == 0 then Exited else Parked(false)])
  }

  function Woken(ws: seq<Worker>): seq<Worker> {
    seq(|ws|, i requires 0 <= i < |ws| => if ws[i].Parked? then Parked(true) else ws[i])
  }

  function Leave(p: Pool, w: nat, threw: bool): Pool
    requires w < |p.workers|
  {
    p.(active := p.active - 1, workers := Woken(p.workers[w := if threw then Dead else Idle]))
  }

  function After(item: Item, next: Next): Worker {
    match next
    case Go(stage) => Busy(item, stage)
    case Retry(_) => Busy(item, Leaving(false))
    case Finish => Busy(item, Leaving(false))
    case Throw => Busy(item, Leaving(true))
  }

  function Progress(p: Pool, w: nat, o: Outcome): Pool
    requires w < |p.workers| && p.workers[w].Busy?
  {
    var item := p.workers[w].item;
    p.(ledger := p.ledger[item.id := o.entry],
       workers := p.workers[w := After(item, o.next)],
       queue := p.queue + if o.next.Retry? then [o.next.item] else [])
  }

  function Step(expireEvery: nat, p: Pool, w: nat, shared: Shared, random: Uuid): (Pool, Shared)
    requires CanStep(p, w)
  {
    var x := p.workers[w];
    if !x.Busy? then (TakeNext(p, w), shared)
    else if x.stage.Leaving? then (Leave(p, w, x.stage.threw), shared)
    else
      var o := Resume(expireEvery, x.item, EntryOf(p, x.item.id), x.stage, shared, random);
      (Progress(p, w, o), o.shared)
  }

  // ---- Who is doing what ----

  predicate At(x: Worker, id: Id) { x.Busy? && x.item.id == id }

  predicate Live(x: Worker, id: Id) { At(x, id) && !x.stage.Leaving? }

  predicate Threw(x: Worker) { x.Dead? || (x.Busy? && x.stage == Leaving(true)) }

  predicate Calls(x: Worker, id: Id) { At(x, id) && x.stage.CallingApify? }

  /** The delivery made the Apify call and has not yet recorded its success. */
  predicate OwnsApify(x: Worker, id: Id) {
    At(x, id)
    && (x.stage.CallingApify?
        || ((x.stage.Releasing? || x.stage.Recovering? || x.stage.Resolving? || x.stage.Settled?)
            && x.stage.goal.Complete?))
  }

  /** The delivery takes the Apify stage as somebody's business: it saw it running, or is past it. */
  predicate Relies(x: Worker, id: Id) {
    At(x, id)
    && (x.stage.Returned? || ((x.stage.Acquiring? || x.stage.Admitted?) && x.stage.seen == Some(Running)))
  }

  /** The delivery is on the synthetic expiry path and has not yet been denied or rejected. */
  predicate Marks(x: Worker, id: Id) {
    At(x, id) && (x.stage.Acquiring? || x.stage.Denied? || x.stage.Admitted?) && x.stage.marker
  }

  predicate OwnsGemini(x: Worker, id: Id) {
    At(x, id)
    && (x.stage.GeminiFull? || x.stage.GeminiAdmitting? || x.stage.GeminiDenied? || x.stage.GeminiAborting?
        || x.stage.GeminiAdmitted? || x.stage.CallingGemini?)
  }

  predicate PastGemini(x: Worker, id: Id) {
    At(x, id)
    && (x.stage.GeminiReleasing? || x.stage.GeminiRecovering? || x.stage.GeminiResolving?
        || x.stage.GeminiFreeing? || x.stage.GeminiDone?)
  }

  ghost predicate Failed(ws: seq<Worker>) { exists w :: 0 <= w < |ws| && Threw(ws[w]) }

  ghost predicate ApifyOwned(ws: seq<Worker>, id: Id) { exists w :: 0 <= w < |ws| && OwnsApify(ws[w], id) }

  ghost predicate GeminiOwned(ws: seq<Worker>, id: Id) { exists w :: 0 <= w < |ws| && OwnsGemini(ws[w], id) }

  ghost predicate InFlight(ws: seq<Worker>, id: Id) { exists w :: 0 <= w < |ws| && Live(ws[w], id) }

  ghost predicate Queued(p: Pool, id: Id) { exists i :: p.cursor <= i < |p.queue| && p.queue[i].id == id }

  ghost predicate Known(queue: seq<Item>, id: Id) { exists i :: 0 <= i < |queue| && queue[i].id == id }

  function BusySet(ws: seq<Worker>): set<nat> { set w: nat | w < |ws| && ws[w].Busy? }

  function Callers(ws: seq<Worker>, id: Id): set<nat> { set w: nat | w < |ws| && Calls(ws[w], id) }
}
