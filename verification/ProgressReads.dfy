/** The in-flight and queued reads of the progress hook: coalescing of refreshes, supersession on a
    request change, and the follow-up read owed to a refresh that arrived during a read. */
module ProgressReads {
  import opened Basics

  /** One GET of a request's progress. `failed` says it ended with 401, 403 or 404 while current. */
  datatype Read = Read(request: nat, aborted: bool, failed: bool, settled: bool)

  /** `active`, `inFlight` and `queued` are the hook's refs; `latest` is the request of the closure in
      `fetchDataRef`, `mounted` that of the effect whose cleanup is pending. */
  datatype State = State(mounted: Option<nat>, active: Option<nat>, latest: Option<nat>,
                         inFlight: Option<nat>, queued: bool, started: seq<Read>)

  const START := State(None, None, None, None, false, [])

  /** Refreshes and manual retries name the request of the closure they were called on. */
  datatype Event =
    | Commit(request: nat)
    | Unmount
    | Refresh(request: nat)
    | Retry(request: nat)
    | FailHard(read: nat)
    | Settle(read: nat)

  predicate Enabled(s: State, e: Event) {
    match e
    case FailHard(i) => i < |s.started| && !s.started[i].settled && !s.started[i].failed
    case Settle(i) => i < |s.started| && !s.started[i].settled
    case _ => true
  }

  /** The guard under which a read may apply its result. */
  predicate IsCurrent(s: State, i: nat)
    requires i < |s.started|
  {
    !s.started[i].aborted && s.active == Some(s.started[i].request)
  }

  predicate Shared(s: State, request: nat) {
    s.inFlight.Some? && s.inFlight.value < |s.started|
    && s.started[s.inFlight.value].request == request && !s.started[s.inFlight.value].aborted
  }

  function AbortInFlight(s: State): seq<Read> {
    if s.inFlight.Some? && s.inFlight.value < |s.started|
    then s.started[s.inFlight.value := s.started[s.inFlight.value].(aborted := true)]
    else s.started
  }

  function FetchData(s: State, request: nat): State {
    if s.active != Some(request) then s
    else if Shared(s, request) then s.(queued := true)
    else s.(started := AbortInFlight(s) + [Read(request, false, false, false)], inFlight := Some(|s.started|))
  }

  function Cleanup(s: State): State {
    if s.mounted.None? then s
    else
      var mine := s.inFlight.Some? && s.inFlight.value < |s.started|
                  && s.started[s.inFlight.value].request == s.mounted.value;
      s.(mounted := None, active := if s.active == s.mounted then None else s.active,
         started := if mine then AbortInFlight(s) else s.started)
  }

  /** The cleanup of the previous effect, the new closure, and the request-change effect. */
  function Committed(s: State, request: nat): State {
    var t := Cleanup(s);
    FetchData(t.(mounted := Some(request), active := Some(request), latest := Some(request), queued := false,
                 started := AbortInFlight(t)), request)
  }

  function Settled(s: State, i: nat): State
    requires i < |s.started|
  {
    var t := s.(started := s.started[i := s.started[i].(settled := true)]);
    if s.inFlight != Some(i) then t
    else
      var u := t.(inFlight := None, queued := false);
      if s.queued && s.active == Some(s.started[i].request) && s.latest.Some? then FetchData(u, s.latest.value) else u
  }

  function Apply(s: State, e: Event): State
    requires Enabled(s, e)
  {
    match e
    case Commit(request) => Committed(s, request)
    case Unmount => Cleanup(s)
    case Refresh(request) => FetchData(s, request)
    case Retry(request) => if Shared(s, request) then s else FetchData(s, request)
    case FailHard(i) =>
      if IsCurrent(s, i) then s.(started := s.started[i := s.started[i].(failed := true)], queued := false)
      else s
    case Settle(i) => Settled(s, i)
  }

  ghost predicate Reaches(s: State, events: seq<Event>, t: State)
    decreases events
  {
    if events == [] then t == s
    else Enabled(s, events[0]) && Reaches(Apply(s, events[0]), events[1..], t)
  }

  // ---- Every run ----

  ghost predicate Valid(s: State) {
    && (s.inFlight.Some? ==> s.inFlight.value < |s.started| && !s.started[s.inFlight.value].settled)
    && (forall i :: 0 <= i < |s.started| && !s.started[i].aborted && !s.started[i].settled ==>
          s.inFlight == Some(i) && s.active == Some(s.started[i].request))
    && (s.active.Some? ==> s.mounted == s.active == s.latest)
    && (s.queued ==> s.inFlight.Some?)
  }

  lemma FetchKeepsValid(s: State, request: nat)
    requires Valid(s)
    ensures Valid(FetchData(s, request))
  {}

  lemma StepKeepsValid(s: State, e: Event)
    requires Valid(s) && Enabled(s, e)
    ensures Valid(Apply(s, e))
  {
    match e
    case Commit(request) =>
      var t := Cleanup(s);
      FetchKeepsValid(t.(mounted := Some(request), active := Some(request), latest := Some(request), queued := false,
                         started := AbortInFlight(t)), request);
    case Unmount =>
    case Refresh(request) => FetchKeepsValid(s, request);
    case Retry(request) => FetchKeepsValid(s, request);
    case FailHard(_) =>
    case Settle(i) =>
      var u := s.(started := s.started[i := s.started[i].(settled := true)], inFlight := None, queued := false);
      if s.inFlight == Some(i) && s.latest.Some? { FetchKeepsValid(u, s.latest.value); }
  }

  lemma {:induction false} RunKeepsValid(s: State, events: seq<Event>, t: State)
    requires Valid(s) && Reaches(s, events, t)
    ensures Valid(t)
    decreases events
  {
    if events != [] {
      StepKeepsValid(s, events[0]);
      RunKeepsValid(Apply(s, events[0]), events[1..], t);
    }
  }

  /** In every reachable state at most one read is neither aborted nor settled; it is the one in flight
      and reads the active request, so no other unsettled read can apply a result. */
  lemma OneLiveRead(events: seq<Event>, s: State, i: nat, k: nat)
    requires Reaches(START, events, s) && i < |s.started| && k < |s.started|
    requires !s.started[i].aborted && !s.started[i].settled
    ensures s.inFlight == Some(i) && IsCurrent(s, i)
    ensures !s.started[k].aborted && !s.started[k].settled ==> k == i
    ensures !s.started[k].settled && IsCurrent(s, k) ==> k == i
  {
    RunKeepsValid(START, events, s);
  }

  /** When a superseded read settles, its successor stays in flight, live and with its queue flag. */
  lemma SupersededSettlesQuietly(events: seq<Event>, s: State, stale: nat, live: nat)
    requires Reaches(START, events, s) && live < |s.started| && !s.started[live].aborted && !s.started[live].settled
    requires stale != live && Enabled(s, Settle(stale))
    ensures var t := Apply(s, Settle(stale));
      && t.inFlight == Some(live) && t.queued == s.queued
      && |t.started| == |s.started| && t.started[live] == s.started[live]
  {
    RunKeepsValid(START, events, s);
  }

  /** A request change always starts one read of the new request, which is in flight, and of all reads
      before it none is left that has neither settled nor been aborted. */
  lemma RequestChangeReads(events: seq<Event>, s: State, request: nat)
    requires Reaches(START, events, s)
    ensures var t, n := Apply(s, Commit(request)), |s.started|;
      && |t.started| == n + 1 && t.started[n] == Read(request, false, false, false)
      && t.inFlight == Some(n) && IsCurrent(t, n) && !t.queued
      && forall i :: 0 <= i < n ==> t.started[i].aborted || t.started[i].settled
  {
    RunKeepsValid(START, events, s);
  }

  // ---- A refresh during a read is followed by another read ----

  /** Nothing ends the obligation: no request change, no unmount, no hard failure of the read, and the
      read does not settle yet. */
  predicate Undisturbed(events: seq<Event>, i: nat) {
    forall k :: 0 <= k < |events| ==>
      !events[k].Commit? && !events[k].Unmount? && events[k] != FailHard(i) && events[k] != Settle(i)
  }

  ghost predicate Owed(s: State, i: nat, request: nat) {
    Valid(s) && i < |s.started| && s.inFlight == Some(i) && !s.started[i].aborted && s.started[i].request == request
    && s.active == Some(request) && s.queued
  }

  lemma {:induction false} OwedPersists(s: State, events: seq<Event>, t: State, i: nat, request: nat)
    requires Owed(s, i, request) && Reaches(s, events, t) && Undisturbed(events, i)
    ensures Owed(t, i, request)
    decreases events
  {
    if events != [] {
      var s' := Apply(s, events[0]);
      assert events[0] in events;
      StepKeepsValid(s, events[0]);
      assert Owed(s', i, request);
      OwedPersists(s', events[1..], t, i, request);
    }
  }

  /** A refresh made while its request is being read is never lost: whatever else happens in between,
      when that read settles another read of the same request starts, unless the request changed, the
      hook unmounted or the read ended with 401, 403 or 404. */
  lemma RefreshIsFollowedUp(before: seq<Event>, s: State, i: nat, between: seq<Event>, t: State)
    requires Reaches(START, before, s) && s.inFlight == Some(i) && i < |s.started| && IsCurrent(s, i)
    requires Reaches(Apply(s, Refresh(s.started[i].request)), between, t) && Undisturbed(between, i)
    ensures i < |t.started| && Enabled(t, Settle(i))
    ensures var u := Apply(t, Settle(i));
      && |u.started| == |t.started| + 1 && u.inFlight == Some(|t.started|)
      && u.started[|t.started|] == Read(s.started[i].request, false, false, false)
  {
    RunKeepsValid(START, before, s);
    var request := s.started[i].request;
    StepKeepsValid(s, Refresh(request));
    OwedPersists(Apply(s, Refresh(request)), between, t, i, request);
  }

  /** No request change and no refresh, and the read does not settle yet. */
  predicate NothingAsked(events: seq<Event>, i: nat) {
    forall k :: 0 <= k < |events| ==> !events[k].Commit? && !events[k].Refresh? && events[k] != Settle(i)
  }

  ghost predicate Withdrawn(s: State, i: nat) {
    && Valid(s) && s.inFlight == Some(i) && i < |s.started| && !s.queued
    && (s.active.Some? ==> !s.started[i].aborted && s.active == Some(s.started[i].request))
  }

  lemma {:induction false} WithdrawnPersists(s: State, events: seq<Event>, t: State, i: nat)
    requires Withdrawn(s, i) && Reaches(s, events, t) && NothingAsked(events, i)
    ensures Withdrawn(t, i) && |t.started| == |s.started|
    decreases events
  {
    if events != [] {
      StepKeepsValid(s, events[0]);
      WithdrawnStep(s, events[0], i);
      WithdrawnPersists(Apply(s, events[0]), events[1..], t, i);
    }
  }

  lemma WithdrawnStep(s: State, e: Event, i: nat)
    requires Withdrawn(s, i) && Enabled(s, e) && !e.Commit? && !e.Refresh? && e != Settle(i)
    requires Valid(Apply(s, e))
    ensures Withdrawn(Apply(s, e), i) && |Apply(s, e).started| == |s.started|
  {}

  /** A live read that ends with 401, 403 or 404 withdraws whatever refresh was queued: unless one is asked for
      or the request changes after that, manual retries start nothing and its settling leads to no read. */
  lemma HardFailureEndsIt(before: seq<Event>, s: State, i: nat, between: seq<Event>, t: State)
    requires Reaches(START, before, s) && Enabled(s, FailHard(i)) && !s.started[i].aborted
    requires Reaches(Apply(s, FailHard(i)), between, t) && NothingAsked(between, i)
    ensures !t.queued && |t.started| == |s.started|
    ensures Enabled(t, Settle(i)) && var u := Apply(t, Settle(i)); |u.started| == |s.started| && u.inFlight.None?
  {
    RunKeepsValid(START, before, s);
    StepKeepsValid(s, FailHard(i));
    WithdrawnPersists(Apply(s, FailHard(i)), between, t, i);
  }

  /** A manual retry never queues a read: it shares the unaborted one of its request, starts one if there is
      none, and does nothing for a request that is not the active one. */
  lemma RetryStartsAtMostOne(events: seq<Event>, s: State, request: nat)
    requires Reaches(START, events, s)
    ensures var t := Apply(s, Retry(request));
      && t.queued == s.queued
      && (if s.active != Some(request) || Shared(s, request) then t == s
          else |t.started| == |s.started| + 1 && t.inFlight == Some(|s.started|) && IsCurrent(t, |s.started|))
  {
    RunKeepsValid(START, events, s);
  }

  // ---- The hook's refs ----

  class Reads {
    var mounted: Option<nat>
    var active: Option<nat>
    var latest: Option<nat>
    var inFlight: Option<nat>
    var queued: bool
    var started: seq<Read>

    ghost function View(): State
      reads this
    {
      State(mounted, active, latest, inFlight, queued, this.started)
    }

    constructor ()
      ensures View() == START
    {
      mounted, active, latest, inFlight, queued, started := None, None, None, None, false, [];
    }

    method AbortCurrent()
      modifies this`started
      ensures this.started == AbortInFlight(old(View()))
    {
      if inFlight.Some? && inFlight.value < |started| {
        started := started[inFlight.value := started[inFlight.value].(aborted := true)];
      }
    }

    method Fetch(request: nat)
      modifies this
      ensures View() == FetchData(old(View()), request)
    {
      if active != Some(request) { return; }
      if inFlight.Some? && inFlight.value < |started|
         && started[inFlight.value].request == request && !started[inFlight.value].aborted {
        queued := true;
        return;
      }
      AbortCurrent();
      inFlight := Some(|started|);
      started := started + [Read(request, false, false, false)];
    }

    /** A manual retry shares the read in flight without queuing another one. */
    method Refetch(request: nat)
      modifies this
      ensures View() == Apply(old(View()), Retry(request))
    {
      if inFlight.Some? && inFlight.value < |started|
         && started[inFlight.value].request == request && !started[inFlight.value].aborted {
        return;
      }
      Fetch(request);
    }

    /** A read that ended with 401, 403 or 404 withdraws the queued refresh, if it is still current. */
    method OnHardFailure(i: nat)
      requires Enabled(View(), FailHard(i))
      modifies this
      ensures View() == Apply(old(View()), FailHard(i))
    {
      if started[i].aborted || active != Some(started[i].request) { return; }
      started := started[i := started[i].(failed := true)];
      queued := false;
    }

    method Clean()
      modifies this
      ensures View() == Cleanup(old(View()))
    {
      if mounted.None? { return; }
      var mine := mounted.value;
      if active == Some(mine) {
        active := None;
      }
      if inFlight.Some? && inFlight.value < |started| && started[inFlight.value].request == mine {
        AbortCurrent();
      }
      mounted := None;
    }

    method CommitRequest(request: nat)
      modifies this
      ensures View() == Apply(old(View()), Commit(request))
    {
      Clean();
      latest := Some(request);
      active := Some(request);
      AbortCurrent();
      queued := false;
      mounted := Some(request);
      Fetch(request);
    }

    /** The handler that runs when a read's promise settles. */
    method OnSettled(i: nat)
      requires Enabled(View(), Settle(i))
      modifies this
      ensures View() == Apply(old(View()), Settle(i))
    {
      started := started[i := started[i].(settled := true)];
      if inFlight != Some(i) { return; }
      inFlight := None;
      var shouldRefetch := queued;
      queued := false;
      if shouldRefetch && active == Some(started[i].request) && latest.Some? {
        Fetch(latest.value);
      }
    }
  }
}
