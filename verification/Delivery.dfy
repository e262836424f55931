/** One delivery of a queued item through the capacity harness: the admission wrapper around the
    fake Apify call, the pre-start expiry path, the Gemini slot and admission, and terminalization.

    A delivery is asynchronous code, so it is given as the stages at which it can be suspended;
    `Resume` is what runs from one suspension to the next. A database operation, which waits in the
    transaction queue, is a suspension of its own. */
module Delivery {
  import opened Basics
  import A = Admission
  import G = GeminiSlots

  datatype Id = Id(role: Role, ordinal: nat)

  datatype Item = Item(id: Id, attempt: nat)

  datatype Mark = Running | Succeeded

  /** Everything the harness keeps under one id: its entries in the provider and Gemini run maps, the
      terminal set, the terminal-effect counts and the expired-once set. The last three fields only
      observe: the calls made to the fake providers, and the running marks erased before a start
      rejection. */
  datatype Entry = Entry(provider: Option<Mark>, gemini: Option<Mark>, terminal: bool, effects: nat,
                         expired: bool, apifyStarts: nat, geminiStarts: nat, erased: nat)

  const BLANK := Entry(None, None, false, 0, false, 0, 0, 0)

  /** What the wrapped run was releasing its lease for. */
  datatype Goal = Reject | Complete

  datatype SlotLease = SlotLease(slot: nat, claim: Uuid, fence: nat)

  datatype Stage =
    | Fresh
    | Acquiring(seen: Option<Mark>, marker: bool)
    | Denied(marker: bool)
    | Admitted(lease: A.Lease, seen: Option<Mark>, marker: bool)
    | CallingApify(lease: A.Lease)
    | Releasing(lease: A.Lease, goal: Goal)
    | Recovering(lease: A.Lease, goal: Goal)
    | Resolving(lease: A.Lease, goal: Goal)
    | Settled(goal: Goal)
    | Returned
    | GeminiFull
    | GeminiAdmitting(slot: SlotLease)
    | GeminiDenied(slot: SlotLease)
    | GeminiAborting
    | GeminiAdmitted(slot: SlotLease, lease: A.Lease)
    | CallingGemini(slot: SlotLease, lease: A.Lease)
    | GeminiReleasing(slot: SlotLease, lease: A.Lease)
    | GeminiRecovering(slot: SlotLease, lease: A.Lease)
    | GeminiResolving(slot: SlotLease, lease: A.Lease)
    | GeminiFreeing(slot: SlotLease)
    | GeminiDone
    | Leaving(threw: bool)

  /** The stores that deliveries of all ids share. */
  datatype Shared = Shared(admission: A.State, slots: seq<G.Slot>)

  datatype Next = Go(stage: Stage) | Retry(item: Item) | Finish | Throw

  datatype Outcome = Outcome(entry: Entry, shared: Shared, next: Next)

  // ---- Identities ----

  function CredentialSlot(id: Id): string {
    if id.role.Paid? then "secondary"
    else match (id.ordinal + 2) % 3 case 0 => "primary" case 1 => "quinary" case _ => "senary"
  }

  function ApifyInput(id: Id): A.Input {
    var slot := CredentialSlot(id);
    match id.role
    case Preflight =>
      A.Input(A.Key(Preflight, A.Apify, slot, Uuid(1, id.ordinal), "preflight:provider",
                    A.Operation("target-profile-fallback", 0)),
              "preflight:apify:" + slot, Uuid(3, id.ordinal), Uuid(3, id.ordinal), 120)
    case Paid =>
      A.Input(A.Key(Paid, A.Apify, slot, Uuid(2, id.ordinal), "paid:target-profile",
                    A.Operation("target-profile-fresh-admission:g", id.ordinal)),
              "paid:apify:" + slot, Uuid(4, id.ordinal), Uuid(4, id.ordinal), 30)
  }

  function SlotName(slot: nat): string {
    if slot < 10 then "gemini-" + ["0123456789"[slot]] else "gemini-none"
  }

  function GeminiInput(id: Id, slot: SlotLease): A.Input {
    A.Input(A.Key(Paid, A.Gemini, SlotName(slot.slot), Uuid(2, id.ordinal), "paid:target-profile",
                  A.Operation("gemini:legacy:unknown:attempt", 1)),
            "paid:gemini:" + SlotName(slot.slot), slot.claim, Uuid(4, id.ordinal), 240)
  }

  function GeminiIdentity(id: Id): G.Identity {
    G.Identity(Uuid(2, id.ordinal), "paid:target-profile", "", 1)
  }

  /** No two ids share an admission identity, in the Apify stage or in the Gemini stage, and the two
      stages share none. */
  lemma IdentitiesAreDistinct(a: Id, b: Id, slotA: SlotLease, slotB: SlotLease)
    ensures ApifyInput(a).key == ApifyInput(b).key ==> a == b
    ensures a.role.Paid? && b.role.Paid? && GeminiInput(a, slotA).key == GeminiInput(b, slotB).key ==> a == b
    ensures GeminiIdentity(a) == GeminiIdentity(b) && a.role == b.role ==> a == b
    ensures ApifyInput(a).key != GeminiInput(b, slotB).key
  {}

  // ---- Ledger updates ----

  /** Deleting a start mark leaves a success mark alone. */
  function Cleared(mark: Option<Mark>): Option<Mark> {
    if mark == Some(Running) then None else mark
  }

  /** One terminal effect: only the first one terminalizes. */
  function Terminalized(e: Entry): Entry {
    e.(effects := e.effects + 1, terminal := e.terminal || e.effects == 0)
  }

  /** The ids whose first deliveries take the synthetic expiry path. */
  predicate Eligible(expireEvery: nat, id: Id) {
    expireEvery > 0 && id.ordinal % expireEvery == 0 && id.ordinal > 64
  }

  predicate ShouldExpire(expireEvery: nat, item: Item, e: Entry) {
    item.attempt == 0 && Eligible(expireEvery, item.id) && !e.expired
  }

  /** Clearing the start mark before a rejection, whoever set it. */
  function Erased(e: Entry): Entry {
    e.(provider := Cleared(e.provider), erased := e.erased + if e.provider == Some(Running) then 1 else 0)
  }

  function Again(item: Item): Next {
    Retry(item.(attempt := item.attempt + 1))
  }

  // ---- From one suspension to the next ----

  function Resume(expireEvery: nat, item: Item, e: Entry, stage: Stage, shared: Shared, random: Uuid): Outcome
  {
    var input := ApifyInput(item.id);
    match stage
    case Fresh =>
      if e.terminal then Outcome(e, shared, Finish)
      else
        var marker := ShouldExpire(expireEvery, item, e);
        var e' := if marker then e.(expired := true) else e;
        if e.provider != Some(Succeeded) then Outcome(e', shared, Go(Acquiring(e.provider, marker)))
        else if marker then Outcome(e', shared, Throw)
        else Outcome(e', shared, Go(Returned))
    case Acquiring(seen, marker) =>
      var (admission, reply) := A.ApplyAcquire(shared.admission, input, random);
      Outcome(e, shared.(admission := admission),
              if reply.Granted? || reply.AlreadyAcquired? then Go(Admitted(reply.lease, seen, marker))
              else if reply.CapacityPending? then Go(Denied(marker))
              else Throw)
    case Denied(marker) =>
      if marker then Outcome(e.(expired := false), shared, Retry(item)) else Outcome(e, shared, Again(item))
    case Admitted(lease, seen, marker) =>
      if seen == Some(Running) then Outcome(e, shared, if marker then Throw else Go(Returned))
      else if marker then
        var (admission, reply) := A.ApplyExpire(shared.admission, input.key);
        if reply.Missing? then Outcome(e, shared, Throw)
        else Outcome(Erased(e), shared.(admission := admission), Go(Releasing(lease, Reject)))
      else if e.provider.Some? then Outcome(e, shared, Go(Returned))
      else Outcome(e.(provider := Some(Running), apifyStarts := e.apifyStarts + 1), shared,
                   Go(CallingApify(lease)))
    case CallingApify(lease) =>
      Outcome(if item.id.role.Preflight? then Terminalized(e) else e, shared, Go(Releasing(lease, Complete)))
    case Releasing(lease, goal) =>
      var reason := if goal.Reject? then A.PrestartRejected else A.Terminal;
      var (admission, reply) := A.ApplyRelease(shared.admission, input.key, lease.token, lease.fence, reason);
      Outcome(e, shared.(admission := admission),
              if reply.Done? then Go(Settled(goal))
              else if reply.LeaseExpired? then Go(Recovering(lease, goal))
              else Throw)
    case Recovering(lease, goal) =>
      var (admission, reply) := A.ApplyRecover(shared.admission, input.key, random);
      Outcome(e, shared.(admission := admission), if reply == A.Answer(true) then Go(Resolving(lease, goal)) else Throw)
    case Resolving(lease, goal) =>
      var (admission, reply) := A.ApplyResolve(shared.admission, input.key);
      Outcome(e, shared.(admission := admission), if reply == A.Answer(true) then Go(Settled(goal)) else Throw)
    case Settled(goal) =>
      if goal.Reject? then Outcome(e, shared, Retry(item.(attempt := 1)))
      else Outcome(e.(provider := Some(Succeeded)), shared, Go(Returned))
    case Returned =>
      if item.id.role.Preflight? then Outcome(e, shared, Finish)
      else if e.provider == Some(Running) then Outcome(e, shared, Again(item))
      else if e.gemini == Some(Succeeded) then Outcome(Terminalized(e), shared, Finish)
      else if e.gemini == Some(Running) then Outcome(e, shared, Finish)
      else
        var (slots, reply) := G.Apply(shared.slots, G.Take(GeminiIdentity(item.id), random));
        Outcome(e.(gemini := Some(Running)), shared.(slots := slots),
                if reply.Pending? then Go(GeminiFull)
                else if reply.Taken? && reply.claim == random
                then Go(GeminiAdmitting(SlotLease(reply.slot, random, reply.fence)))
                else Go(GeminiAborting))
    case GeminiFull => Outcome(e.(gemini := Cleared(e.gemini)), shared, Again(item))
    case GeminiAdmitting(slot) =>
      var (admission, reply) := A.ApplyAcquire(shared.admission, GeminiInput(item.id, slot), random);
      Outcome(e, shared.(admission := admission),
              if reply.Granted? || reply.AlreadyAcquired? then Go(GeminiAdmitted(slot, reply.lease))
              else Go(GeminiDenied(slot)))
    case GeminiDenied(slot) =>
      var slots := G.Apply(shared.slots, G.Give(slot.slot, slot.claim, slot.fence)).0;
      Outcome(e, shared.(slots := slots), Go(GeminiAborting))
    case GeminiAborting => Outcome(e.(gemini := Cleared(e.gemini)), shared, Throw)
    case GeminiAdmitted(slot, lease) =>
      Outcome(e.(geminiStarts := e.geminiStarts + 1), shared, Go(CallingGemini(slot, lease)))
    case CallingGemini(slot, lease) =>
      Outcome(e.(gemini := Some(Succeeded)), shared, Go(GeminiReleasing(slot, lease)))
    case GeminiReleasing(slot, lease) =>
      var (admission, reply) :=
        A.ApplyRelease(shared.admission, lease.input.key, lease.token, lease.fence, A.Terminal);
      Outcome(e, shared.(admission := admission),
              if reply.Done? then Go(GeminiFreeing(slot))
              else if reply.LeaseExpired? then Go(GeminiRecovering(slot, lease))
              else Throw)
    case GeminiRecovering(slot, lease) =>
      var (admission, reply) := A.ApplyRecover(shared.admission, lease.input.key, random);
      Outcome(e, shared.(admission := admission),
              if reply == A.Answer(true) then Go(GeminiResolving(slot, lease)) else Throw)
    case GeminiResolving(slot, lease) =>
      var (admission, reply) := A.ApplyResolve(shared.admission, lease.input.key);
      Outcome(e, shared.(admission := admission), if reply == A.Answer(true) then Go(GeminiFreeing(slot)) else Throw)
    case GeminiFreeing(slot) =>
      var (slots, reply) := G.Apply(shared.slots, G.Give(slot.slot, slot.claim, slot.fence));
      Outcome(e, shared.(slots := slots), if reply.Given? && reply.fence == slot.fence then Go(GeminiDone) else Throw)
    case GeminiDone => Outcome(Terminalized(e), shared, Finish)
    case Leaving(threw) => Outcome(e, shared, if threw then Throw else Finish)
  }
}
