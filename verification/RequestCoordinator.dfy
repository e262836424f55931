/** The client's request coordinator: lifecycles, the abort set and the poll token. A scope's own
    closure state, whether it finished and whether its controller was aborted, is kept in a table
    indexed by the order in which scopes were handed out; a poll scope's token is its index. */
module RequestCoordinator {
  import opened Basics

  /** A preflight id asked for: left out, or exactly this one, where none stands for null. */
  datatype Wanted = Any | Exactly(id: Option<string>)

  datatype Scope = Scope(generation: nat, wanted: Wanted, poll: bool, finished: bool, aborted: bool)

  datatype State = State(generation: nat, current: Option<string>, controllers: set<nat>,
                         pollToken: Option<nat>, scopes: seq<Scope>)

  const START := State(0, None, {}, None, [])

  datatype Op =
    | BeginLifecycle(preflight: Option<string>)
    | Attach(generation: nat, preflightId: string)
    | BeginRequest(generation: nat, wanted: Wanted)
    | BeginPoll(generation: nat, preflightId: string)
    | Finish(scope: nat)
    | Abort(scope: nat)

  datatype Reply = Lifecycle(generation: nat) | Attached(yes: bool) | Given(scope: nat) | Refused | Done

  predicate Matches(s: State, generation: nat, wanted: Wanted) {
    generation == s.generation && (wanted.Any? || wanted.id == s.current)
  }

  predicate ScopeIsCurrent(s: State, i: nat)
    requires i < |s.scopes|
  {
    var scope := s.scopes[i];
    !scope.finished && !scope.aborted && Matches(s, scope.generation, scope.wanted)
  }

  function AbortAll(scopes: seq<Scope>, controllers: set<nat>): seq<Scope> {
    seq(|scopes|, i requires 0 <= i < |scopes| =>
      if i in controllers then scopes[i].(aborted := true) else scopes[i])
  }

  /** Finishing a scope; `abort` says whether its controller is aborted first. Doing either again
      does nothing more, except that an abort always aborts. */
  function Ended(s: State, i: nat, abort: bool): State
    requires i < |s.scopes|
  {
    s.(scopes := s.scopes[i := s.scopes[i].(finished := true, aborted := s.scopes[i].aborted || abort)],
       controllers := s.controllers - {i},
       pollToken := if s.scopes[i].poll && s.pollToken == Some(i) then None else s.pollToken)
  }

  function Begin(s: State, generation: nat, wanted: Wanted, poll: bool): (State, Reply) {
    if !Matches(s, generation, wanted) then (s, Refused)
    else
      var i := |s.scopes|;
      (s.(scopes := s.scopes + [Scope(generation, wanted, poll, false, false)], controllers := s.controllers + {i},
          pollToken := if poll then Some(i) else s.pollToken), Given(i))
  }

  function Apply(s: State, op: Op): (State, Reply) {
    match op
    case BeginLifecycle(preflight) =>
      (State(s.generation + 1, preflight, {}, None, AbortAll(s.scopes, s.controllers)), Lifecycle(s.generation + 1))
    case Attach(generation, id) =>
      if generation != s.generation then (s, Attached(false)) else (s.(current := Some(id)), Attached(true))
    case BeginRequest(generation, wanted) => Begin(s, generation, wanted, false)
    case BeginPoll(generation, id) =>
      if s.pollToken.Some? then (s, Refused) else Begin(s, generation, Exactly(Some(id)), true)
    case Finish(i) => if i < |s.scopes| then (Ended(s, i, false), Done) else (s, Refused)
    case Abort(i) => if i < |s.scopes| then (Ended(s, i, true), Done) else (s, Refused)
  }

  function Run(s: State, ops: seq<Op>): State
    decreases ops
  {
    if ops == [] then s else Run(Apply(s, ops[0]).0, ops[1..])
  }

  // ---- Invariants ----

  /** The controllers are exactly the unfinished scopes of the current generation; every other
      unfinished scope was aborted; the poll token is held by exactly the unfinished current poll. */
  ghost predicate Valid(s: State) {
    && (forall i: nat :: i in s.controllers <==>
          i < |s.scopes| && !s.scopes[i].finished && s.scopes[i].generation == s.generation)
    && (forall i :: 0 <= i < |s.scopes| ==> s.scopes[i].generation <= s.generation)
    && (forall i :: 0 <= i < |s.scopes| && !s.scopes[i].finished ==>
          (s.scopes[i].aborted <==> s.scopes[i].generation < s.generation))
    && (forall i: nat :: s.pollToken == Some(i) <==> i in s.controllers && s.scopes[i].poll)
  }

  lemma StepKeepsValid(s: State, op: Op)
    requires Valid(s)
    ensures Valid(Apply(s, op).0)
  {
    var s' := Apply(s, op).0;
    match op
    case BeginLifecycle(_) => assert forall i :: 0 <= i < |s'.scopes| ==> s'.scopes[i].generation < s'.generation;
    case Attach(_, _) =>
    case BeginRequest(_, _) =>
    case BeginPoll(_, _) =>
    case Finish(_) =>
    case Abort(_) =>
  }

  lemma {:induction false} RunKeepsValid(s: State, ops: seq<Op>)
    requires Valid(s)
    ensures Valid(Run(s, ops))
    decreases ops
  {
    if ops != [] {
      StepKeepsValid(s, ops[0]);
      RunKeepsValid(Apply(s, ops[0]).0, ops[1..]);
    }
  }

  /** In every reachable state the abort set is exactly the unfinished scopes of the current
      generation, and a scope is current exactly when it is in that set and its preflight is. */
  lemma ControllersAreExact(ops: seq<Op>)
    ensures var s := Run(START, ops);
      && (forall i: nat :: i in s.controllers <==>
            i < |s.scopes| && !s.scopes[i].finished && s.scopes[i].generation == s.generation)
      && (forall i: nat :: i < |s.scopes| ==>
            (ScopeIsCurrent(s, i) <==>
               i in s.controllers && (s.scopes[i].wanted.Any? || s.scopes[i].wanted.id == s.current)))
  {
    RunKeepsValid(START, ops);
  }

  /** At most one poll is unfinished per lifecycle, and a new one is refused exactly while there is
      one or when the asked-for preflight is not the current one of the current generation. */
  lemma OnePollPerLifecycle(ops: seq<Op>, generation: nat, id: string)
    ensures var s := Run(START, ops);
      && (forall i, k ::
            (0 <= i < |s.scopes| && 0 <= k < |s.scopes| && s.scopes[i].poll && s.scopes[k].poll
             && !s.scopes[i].finished && !s.scopes[k].finished
             && s.scopes[i].generation == s.generation == s.scopes[k].generation) ==> i == k)
      && (Apply(s, BeginPoll(generation, id)).1.Refused? <==>
            || generation != s.generation || s.current != Some(id)
            || exists i :: 0 <= i < |s.scopes| && s.scopes[i].poll && !s.scopes[i].finished
                           && s.scopes[i].generation == s.generation)
  {
    var s := Run(START, ops);
    RunKeepsValid(START, ops);
    forall i | 0 <= i < |s.scopes| && s.scopes[i].poll && !s.scopes[i].finished
               && s.scopes[i].generation == s.generation
      ensures s.pollToken == Some(i)
    {
      assert i in s.controllers;
    }
    if s.pollToken.Some? { assert s.pollToken.value in s.controllers; }
  }

  /** Ending a scope that has finished, or one that an earlier lifecycle left unfinished, such as a poll
      aborted by `beginLifecycle` whose own `finish` comes late, frees no token, removes no controller and
      touches no other scope. */
  lemma StaleEndIsHarmless(ops: seq<Op>, i: nat, abort: bool)
    requires i < |Run(START, ops).scopes|
    requires Run(START, ops).scopes[i].finished || Run(START, ops).scopes[i].generation < Run(START, ops).generation
    ensures var s := Run(START, ops); var s' := Ended(s, i, abort);
      && s'.pollToken == s.pollToken && s'.controllers == s.controllers
      && forall k :: 0 <= k < |s.scopes| && k != i ==> s'.scopes[k] == s.scopes[k]
  {
    RunKeepsValid(START, ops);
  }

  // ---- A new lifecycle ends all earlier scopes ----

  /** A scope of an earlier generation stays as it was handed out, and once aborted it stays aborted. */
  lemma {:induction false} ScopesStay(s: State, ops: seq<Op>, i: nat)
    requires i < |s.scopes|
    ensures var t := Run(s, ops);
      && i < |t.scopes| && s.generation <= t.generation && t.scopes[i].generation == s.scopes[i].generation
      && (s.scopes[i].aborted ==> t.scopes[i].aborted) && (s.scopes[i].finished ==> t.scopes[i].finished)
    decreases ops
  {
    if ops != [] {
      ScopesStay(Apply(s, ops[0]).0, ops[1..], i);
    }
  }

  /** After `beginLifecycle` every scope handed out before is finished or aborted, and none of them is
      current in any later state. */
  lemma LifecycleEndsScopes(before: seq<Op>, preflight: Option<string>, after: seq<Op>, i: nat)
    requires i < |Run(START, before).scopes|
    ensures var s := Apply(Run(START, before), BeginLifecycle(preflight)).0; var t := Run(s, after);
      && (s.scopes[i].finished || s.scopes[i].aborted)
      && i < |t.scopes| && !ScopeIsCurrent(t, i)
  {
    RunKeepsValid(START, before);
    var s := Apply(Run(START, before), BeginLifecycle(preflight)).0;
    ScopesStay(s, after, i);
  }

  // ---- The preflight of a lifecycle ----

  lemma {:induction false} GenerationsGrow(s: State, ops: seq<Op>)
    ensures s.generation <= Run(s, ops).generation
    decreases ops
  {
    if ops != [] { GenerationsGrow(Apply(s, ops[0]).0, ops[1..]); }
  }

  /** The preflight of the last lifecycle begun, or of the last attach that named its generation since. */
  function LatestPreflight(ops: seq<Op>, generation: nat, preflight: Option<string>): Option<string>
    decreases ops
  {
    if ops == [] then preflight
    else if ops[0].BeginLifecycle? then LatestPreflight(ops[1..], generation + 1, ops[0].preflight)
    else if ops[0].Attach? && ops[0].generation == generation then
      LatestPreflight(ops[1..], generation, Some(ops[0].preflightId))
    else LatestPreflight(ops[1..], generation, preflight)
  }

  /** The current preflight is at every time the latest one; requests, polls and their ends never touch it. */
  lemma {:induction false} PreflightIsLatest(s: State, ops: seq<Op>)
    ensures Run(s, ops).current == LatestPreflight(ops, s.generation, s.current)
    decreases ops
  {
    if ops != [] { PreflightIsLatest(Apply(s, ops[0]).0, ops[1..]); }
  }

  /** An attach that comes from before a `beginLifecycle` is refused in every later state, where it leaves
      the current preflight alone; one of the current generation is what a request for its id then finds. */
  lemma StaleAttachIsRefused(before: seq<Op>, preflight: Option<string>, after: seq<Op>, stale: nat, id: string)
    requires stale <= Run(START, before).generation
    ensures var t := Run(Apply(Run(START, before), BeginLifecycle(preflight)).0, after);
      && Apply(t, Attach(stale, id)) == (t, Attached(false))
      && var (u, reply) := Apply(t, Attach(t.generation, id));
         reply == Attached(true) && Apply(u, BeginRequest(t.generation, Exactly(Some(id)))).1.Given?
  {
    GenerationsGrow(Apply(Run(START, before), BeginLifecycle(preflight)).0, after);
  }

  // ---- The coordinator object ----

  class Coordinator {
    var generation: nat
    var currentPreflightId: Option<string>
    var controllers: set<nat>
    var pollToken: Option<nat>
    var scopes: seq<Scope>

    ghost function View(): State
      reads this
    {
      State(generation, currentPreflightId, controllers, pollToken, scopes)
    }

    constructor ()
      ensures View() == START
    {
      generation, currentPreflightId, controllers, pollToken, scopes := 0, None, {}, None, [];
    }

    method BeginLifecycle(preflight: Option<string>) returns (reply: Reply)
      requires Valid(View())
      modifies this
      ensures (View(), reply) == Apply(old(View()), Op.BeginLifecycle(preflight))
    {
      generation := generation + 1;
      currentPreflightId := preflight;
      pollToken := None;
      ghost var before := scopes;
      var left := controllers;
      while left != {}
        invariant left <= controllers && controllers == old(controllers) && |scopes| == |before|
        invariant generation == old(generation) + 1 && currentPreflightId == preflight && pollToken == None
        invariant forall i :: 0 <= i < |scopes| ==>
          scopes[i] == if i in controllers - left then before[i].(aborted := true) else before[i]
        decreases |left|
      {
        var controller :| controller in left;
        scopes := scopes[controller := scopes[controller].(aborted := true)];
        left := left - {controller};
      }
      controllers := {};
      assert scopes == AbortAll(before, old(controllers));
      reply := Lifecycle(generation);
    }

    method AttachPreflight(forGeneration: nat, preflightId: string) returns (reply: Reply)
      modifies this
      ensures (View(), reply) == Apply(old(View()), Attach(forGeneration, preflightId))
    {
      if forGeneration != generation {
        return Attached(false);
      }
      currentPreflightId := Some(preflightId);
      return Attached(true);
    }

    method BeginRequest(forGeneration: nat, wanted: Wanted) returns (reply: Reply)
      modifies this
      ensures (View(), reply) == Apply(old(View()), Op.BeginRequest(forGeneration, wanted))
    {
      if forGeneration != generation || (wanted.Exactly? && wanted.id != currentPreflightId) {
        return Refused;
      }
      var scope := |scopes|;
      controllers := controllers + {scope};
      scopes := scopes + [Scope(forGeneration, wanted, false, false, false)];
      return Given(scope);
    }

    method BeginPoll(forGeneration: nat, preflightId: string) returns (reply: Reply)
      modifies this
      ensures (View(), reply) == Apply(old(View()), Op.BeginPoll(forGeneration, preflightId))
    {
      if pollToken.Some? {
        return Refused;
      }
      reply := BeginRequest(forGeneration, Exactly(Some(preflightId)));
      if reply.Refused? { return; }
      scopes := scopes[reply.scope := scopes[reply.scope].(poll := true)];
      assert scopes == old(scopes) + [scopes[reply.scope]];
      pollToken := Some(reply.scope);
    }

    method Finish(scope: nat)
      requires scope < |scopes|
      modifies this
      ensures View() == Apply(old(View()), Op.Finish(scope)).0
    {
      if scopes[scope].poll && pollToken == Some(scope) {
        pollToken := None;
      }
      scopes := scopes[scope := scopes[scope].(finished := true)];
      controllers := controllers - {scope};
    }

    method Abort(scope: nat)
      requires scope < |scopes|
      modifies this
      ensures View() == Apply(old(View()), Op.Abort(scope)).0
    {
      scopes := scopes[scope := scopes[scope].(aborted := true)];
      Finish(scope);
    }
  }
}
