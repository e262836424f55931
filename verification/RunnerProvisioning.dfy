/** Resumable provisioning of the two end-to-end runner accounts: a keychain, an auth service and a
    ledger, each of whose calls may fail before or after its effect, or never return. */
module RunnerProvisioning {
  import opened Basics

  datatype Plan = Basic | Standard

  const PLANS: seq<Plan> := [Basic, Standard]

  /** Emails are compared in their normalised form. */
  datatype Credential = Credential(email: string, password: string, userId: Option<nat>)

  /** A keychain item may hold something that does not parse as a credential. */
  datatype Item = Parsed(credential: Credential) | Malformed

  /** `plan` is the runner-plan metadata; a user's id is its position. */
  datatype User = User(email: string, plan: Option<Plan>)

  datatype Runner = Runner(userId: nat, email: string)

  /** `created` only observes: which users provisioning created, for which plan. */
  datatype State = State(keychain: map<Plan, Item>, users: seq<User>, runners: map<Plan, Runner>,
                         created: seq<(Plan, nat)>)

  /** How one external call goes: it works, it reports an error without or after its effect, or the
      invocation ends before or after it. Calls beyond the script work. */
  datatype Fault = Works | Fails | Loses | EndsBefore | EndsAfter

  predicate Takes(f: Fault) { f.Works? || f.Loses? || f.EndsAfter? }

  // ---- Consistency, and what a run may change ----

  predicate Stored(s: State, plan: Plan) { plan in s.keychain && s.keychain[plan].Parsed? }

  predicate Registered(s: State, email: string) { exists u :: 0 <= u < |s.users| && s.users[u].email == email }

  predicate Names(s: State, plan: Plan, c: Credential) {
    c.userId.Some? && c.userId.value < |s.users| && s.users[c.userId.value] == User(c.email, Some(plan))
  }

  ghost predicate UniqueEmails(users: seq<User>) {
    forall u, v :: 0 <= u < |users| && 0 <= v < |users| && users[u].email == users[v].email ==> u == v
  }

  /** Auth emails are unique; a user created for a plan has the plan's stored email, so there is at most one. */
  ghost predicate Valid(s: State) {
    && UniqueEmails(s.users)
    && (forall i :: 0 <= i < |s.created| ==>
          && Stored(s, s.created[i].0) && s.created[i].1 < |s.users|
          && s.users[s.created[i].1] == User(s.keychain[s.created[i].0].credential.email, Some(s.created[i].0)))
    && (forall i, k :: 0 <= i < k < |s.created| ==> s.created[i].0 != s.created[k].0)
  }

  /** The users that are new are those that were created, in order. */
  ghost predicate UsersExtend(s: State, t: State) {
    && s.users <= t.users && s.created <= t.created
    && |t.users| - |s.users| == |t.created| - |s.created|
    && forall i :: |s.created| <= i < |t.created| ==> t.created[i].1 == |s.users| + i - |s.created|
  }

  /** Emails, passwords and user ids never change once written, and an id is only written where it names
      the user with the stored email and the plan's metadata. */
  ghost predicate ItemExtends(s: State, t: State, plan: Plan) {
    && (plan in s.keychain ==>
          && plan in t.keychain
          && (s.keychain[plan].Malformed? ==> t.keychain[plan].Malformed?)
          && (Stored(s, plan) ==>
                && Stored(t, plan)
                && t.keychain[plan].credential.email == s.keychain[plan].credential.email
                && t.keychain[plan].credential.password == s.keychain[plan].credential.password
                && (s.keychain[plan].credential.userId.Some? ==>
                      t.keychain[plan].credential.userId == s.keychain[plan].credential.userId)))
    && (Stored(t, plan) && t.keychain[plan].credential.userId.Some? ==>
          || (Stored(s, plan) && s.keychain[plan].credential.userId.Some?)
          || Names(t, plan, t.keychain[plan].credential))
  }

  /** What is stored stays, and neither users nor runners disappear or change. */
  ghost predicate Extends(s: State, t: State) {
    && UsersExtend(s, t)
    && (forall plan :: ItemExtends(s, t, plan))
    && (forall plan :: plan in s.runners ==> plan in t.runners && t.runners[plan] == s.runners[plan])
  }

  lemma ExtendsTransitive(s: State, t: State, u: State)
    requires Extends(s, t) && Extends(t, u)
    ensures Extends(s, u)
  {
    forall plan ensures ItemExtends(s, u, plan) {
      assert ItemExtends(s, t, plan) && ItemExtends(t, u, plan);
    }
    forall i | |s.created| <= i < |u.created| ensures u.created[i].1 == |s.users| + i - |s.created| {
      if i < |t.created| { assert u.created[i] == t.created[i]; }
    }
  }

  /** The credential a run will work with: the stored one, or the generated proposal. */
  predicate Resolvable(s: State, plan: Plan, proposal: Credential) {
    (plan in s.keychain ==> s.keychain[plan].Parsed?)
    && Claimable(s, plan, if Stored(s, plan) then s.keychain[plan].credential else proposal)
  }

  /** A stored user id that names a user with the email and the plan's metadata; without an id, an email
      that is free or belongs to a user with the plan's metadata. */
  predicate Claimable(s: State, plan: Plan, c: Credential) {
    if c.userId.Some? then Names(s, plan, c)
    else forall u :: 0 <= u < |s.users| && s.users[u].email == c.email ==> s.users[u].plan == Some(plan)
  }

  lemma Unchanged(s: State)
    ensures Extends(s, s)
  {
    forall plan ensures ItemExtends(s, s, plan) {}
  }

  lemma StoringKeeps(s: State, plan: Plan, c: Credential)
    requires Valid(s) && Stored(s, plan) && s.keychain[plan].credential == c.(userId := None) && Names(s, plan, c)
    ensures var t := s.(keychain := s.keychain[plan := Parsed(c)]); Valid(t) && Extends(s, t)
  {}

  /** The auth user of a stored credential may be created as long as its email is free. */
  lemma CreatingKeeps(s: State, plan: Plan, email: string)
    requires Valid(s) && Stored(s, plan) && s.keychain[plan].credential.email == email && !Registered(s, email)
    ensures var t := s.(users := s.users + [User(email, Some(plan))], created := s.created + [(plan, |s.users|)]);
      && Valid(t) && Extends(s, t)
      && (forall c: Credential :: c.email == email && Claimable(s, plan, c) ==> Claimable(t, plan, c))
  {
    var t := s.(users := s.users + [User(email, Some(plan))], created := s.created + [(plan, |s.users|)]);
    forall other ensures ItemExtends(s, t, other) {}
    forall i | 0 <= i < |s.created| ensures s.created[i].0 != plan {
      assert s.users[s.created[i].1].email != email;
    }
  }

  /** The ledger holds the plan's runner under the stored user id and email. */
  predicate Provisioned(s: State, plan: Plan) {
    && plan in s.runners && Stored(s, plan) && Names(s, plan, s.keychain[plan].credential)
    && s.runners[plan] == Runner(s.keychain[plan].credential.userId.value, s.keychain[plan].credential.email)
  }

  ghost predicate AllProvisioned(s: State, plans: set<Plan>) { forall plan :: plan in plans ==> Provisioned(s, plan) }

  /** How far a provision run has come: the plans it has done, and how many of those were new. */
  ghost predicate Progress(start: State, s: State, done: set<Plan>, count: nat) {
    Valid(s) && Extends(start, s) && AllProvisioned(s, done)
    && s.runners.Keys <= start.runners.Keys + done && count == |done - start.runners.Keys|
  }

  /** The plans before one of them in the provision loop. */
  function FirstPlans(i: nat): set<Plan> {
    if i == 0 then {} else if i == 1 then {Basic} else {Basic, Standard}
  }

  lemma NothingDone(s: State)
    requires Valid(s)
    ensures Progress(s, s, {}, 0)
  {
    Unchanged(s);
  }

  lemma ProvisionedStays(s: State, t: State, plans: set<Plan>)
    requires Valid(t) && Extends(s, t) && AllProvisioned(s, plans)
    ensures AllProvisioned(t, plans)
  {
    forall plan | plan in plans ensures Provisioned(t, plan) {
      assert Provisioned(s, plan) && ItemExtends(s, t, plan);
    }
  }

  lemma EveryPlan(s: State, done: set<Plan>, known: set<Plan>)
    requires done == {Basic, Standard} && AllProvisioned(s, done) && s.runners.Keys <= known + done
    ensures (forall plan :: Provisioned(s, plan)) && s.runners.Keys - known == done - known
  {
    forall plan ensures Provisioned(s, plan) {
      assert plan.Basic? || plan.Standard?;
    }
  }

  lemma NewRunner(done: set<Plan>, plan: Plan, known: set<Plan>)
    requires plan !in done
    ensures |done + {plan} - known| == |done - known| + if plan in known then 0 else 1
  {
    assert done + {plan} - known == (done - known) + if plan in known then {} else {plan};
  }

  lemma PlanDone(start: State, s: State, t: State, done: set<Plan>, plan: Plan, count: nat, created: bool)
    requires Progress(start, s, done, count) && plan !in done
    requires Valid(t) && Extends(s, t) && Extends(start, t) && Provisioned(t, plan)
    requires t.runners.Keys <= s.runners.Keys + {plan} && (created <==> plan !in s.runners)
    ensures Progress(start, t, done + {plan}, if created then count + 1 else count)
  {
    ProvisionedStays(s, t, done);
    NewRunner(done, plan, start.runners.Keys);
    assert plan in start.runners <==> plan in s.runners;
  }

  lemma NextPlan(i: nat)
    requires i < |PLANS|
    ensures PLANS[i] !in FirstPlans(i) && FirstPlans(i + 1) == FirstPlans(i) + {PLANS[i]}
  {}

  /** The email a run works with. */
  function Email(s: State, plan: Plan, proposal: Credential): string {
    if Stored(s, plan) then s.keychain[plan].credential.email else proposal.email
  }

  /** Of the keychain only this plan's item has changed, and new users all have this email. */
  ghost predicate OnlyFor(s: State, t: State, plan: Plan, email: string) {
    && (forall other :: other != plan ==>
          && (other in t.keychain <==> other in s.keychain)
          && (other in s.keychain ==> t.keychain[other] == s.keychain[other]))
    && s.users <= t.users && forall u :: |s.users| <= u < |t.users| ==> t.users[u].email == email
  }

  /** The plan can be resolved, and if the ledger has a runner for it, it is the right one. */
  predicate Completable(s: State, plan: Plan, proposal: Credential) {
    Resolvable(s, plan, proposal) && (plan in s.runners ==> Provisioned(s, plan))
  }

  /** Both plans can be completed, under different emails. */
  predicate CanComplete(s: State, basic: Credential, standard: Credential) {
    && Completable(s, Basic, basic) && Completable(s, Standard, standard)
    && Email(s, Basic, basic) != Email(s, Standard, standard)
  }

  lemma StaysCompletable(s: State, t: State, plan: Plan, email: string, other: Plan, proposal: Credential)
    requires Completable(s, other, proposal) && other != plan && Email(s, other, proposal) != email
    requires Extends(s, t) && OnlyFor(s, t, plan, email) && t.runners.Keys <= s.runners.Keys + {plan}
    ensures Completable(t, other, proposal)
  {}

  // ---- The rollout ----

  class Rollout {
    var state: State
    var faults: seq<Fault>

    constructor (state: State, faults: seq<Fault>)
      ensures this.state == state && this.faults == faults
    {
      this.state := state;
      this.faults := faults;
    }

    method NextFault() returns (fault: Fault)
      modifies this`faults
      ensures old(faults) == [] ==> fault == Works && faults == []
      ensures old(faults) != [] ==> fault == old(faults)[0] && faults == old(faults)[1..]
    {
      if faults == [] { return Works; }
      fault := faults[0];
      faults := faults[1..];
    }

    method WriteKeychain(plan: Plan, credential: Credential) returns (ok: bool)
      modifies this
      ensures ok ==> state == old(state).(keychain := old(state.keychain)[plan := Parsed(credential)])
      ensures !ok ==>
        state == old(state) || state == old(state).(keychain := old(state.keychain)[plan := Parsed(credential)])
      ensures old(faults) == [] ==> ok && faults == []
    {
      var fault := NextFault();
      if Takes(fault) {
        state := state.(keychain := state.keychain[plan := Parsed(credential)]);
      }
      ok := fault.Works?;
    }

    /** Answers the user, or an error the caller may catch (`None`), or ends the invocation. */
    method CreateUser(plan: Plan, email: string) returns (ended: bool, user: Option<nat>)
      modifies this
      ensures state == old(state)
           || (!Registered(old(state), email)
               && state == old(state).(users := old(state.users) + [User(email, Some(plan))],
                                       created := old(state.created) + [(plan, |old(state.users)|)]))
      ensures user.Some? ==> state != old(state) && user.value == |old(state.users)|
      ensures old(faults) == [] ==>
        && !ended && faults == []
        && (user.None? <==> Registered(old(state), email)) && (user.None? ==> state == old(state))
    {
      var fault := NextFault();
      ended, user := fault.EndsBefore? || fault.EndsAfter?, None;
      if Takes(fault) && !Registered(state, email) {
        if fault.Works? { user := Some(|state.users|); }
        state := state.(users := state.users + [User(email, Some(plan))],
                        created := state.created + [(plan, |state.users|)]);
      }
    }

    method FindUserByEmail(email: string) returns (ok: bool, user: Option<nat>)
      modifies this`faults
      ensures user.Some? ==> ok && user.value < |state.users| && state.users[user.value].email == email
      ensures ok && user.None? ==> !Registered(state, email)
      ensures old(faults) == [] ==> ok && faults == []
    {
      var fault := NextFault();
      ok, user := fault.Works?, None;
      if !ok { return; }
      for u := 0 to |state.users|
        invariant forall v :: 0 <= v < u ==> state.users[v].email != email
      {
        if state.users[u].email == email { return true, Some(u); }
      }
    }

    /** The stored credential, or a generated one that is stored before it is used. */
    method Recall(plan: Plan, proposal: Credential) returns (r: Option<Credential>)
      requires Valid(state) && proposal.userId.None?
      modifies this
      ensures Valid(state) && Extends(old(state), state)
      ensures state == old(state) || (plan !in old(state.keychain)
                && state == old(state).(keychain := old(state.keychain)[plan := Parsed(proposal)]))
      ensures r.Some? ==> Stored(state, plan) && state.keychain[plan].credential == r.value
      ensures old(faults) == [] ==>
        faults == [] && (r.None? <==> plan in old(state.keychain) && old(state.keychain)[plan].Malformed?)
    {
      r := None;
      if plan in state.keychain {
        if state.keychain[plan].Parsed? { r := Some(state.keychain[plan].credential); }
      } else {
        var ok := WriteKeychain(plan, proposal);
        if ok { r := Some(proposal); }
      }
    }

    /** The user of a stored credential that names none yet: created, or found if creating failed. */
    method Obtain(plan: Plan, credential: Credential) returns (user: Option<nat>)
      requires Valid(state) && Stored(state, plan) && state.keychain[plan].credential == credential
      requires credential.userId.None?
      modifies this
      ensures Valid(state) && Extends(old(state), state)
      ensures state.runners == old(state.runners) && state.keychain == old(state.keychain)
      ensures OnlyFor(old(state), state, plan, credential.email)
      ensures user.Some? ==> user.value < |state.users| && state.users[user.value] == User(credential.email, Some(plan))
      ensures Claimable(old(state), plan, credential) ==> Claimable(state, plan, credential)
      ensures old(faults) == [] ==> faults == [] && (user.Some? <==> Claimable(old(state), plan, credential))
    {
      var ended;
      ended, user := CreateUser(plan, credential.email);
      if state == old(state) { Unchanged(state); } else { CreatingKeeps(old(state), plan, credential.email); }
      if ended || user.Some? {
        if ended { user := None; }
        return;
      }
      var ok;
      ok, user := FindUserByEmail(credential.email);
      if user.Some? && state.users[user.value].plan != Some(plan) { user := None; }
    }

    /** From the credential to its user: a stored id is looked up and its user's email and metadata are
        compared; without one the user is obtained and its id stored. */
    method Identify(plan: Plan, credential: Credential) returns (r: Option<Credential>)
      requires Valid(state) && Stored(state, plan) && state.keychain[plan].credential == credential
      modifies this
      ensures Valid(state) && Extends(old(state), state) && state.runners == old(state.runners)
      ensures r.Some? ==>
        Stored(state, plan) && state.keychain[plan].credential == r.value && Names(state, plan, r.value)
      ensures OnlyFor(old(state), state, plan, credential.email)
      ensures Claimable(old(state), plan, credential) ==>
        Stored(state, plan) && Claimable(state, plan, state.keychain[plan].credential)
      ensures old(faults) == [] ==> faults == [] && (r.Some? <==> Claimable(old(state), plan, credential))
    {
      if credential.userId.Some? {
        var fault := NextFault();
        return if fault.Works? && Names(state, plan, credential) then Some(credential) else None;
      }
      var user := Obtain(plan, credential);
      if user.None? { return None; }
      var identified := credential.(userId := user);
      StoringKeeps(state, plan, identified);
      ExtendsTransitive(old(state), state, state.(keychain := state.keychain[plan := Parsed(identified)]));
      var ok := WriteKeychain(plan, identified);
      return if ok then Some(identified) else None;
    }

    /** Resolves one plan to its user. A stored user id is looked up; otherwise the stored email is created
        or, if that fails, found, and the id is stored. When every call works this succeeds exactly when
        the plan is resolvable, whatever earlier runs left behind; and wherever it is interrupted, a plan
        that was resolvable still is. */
    method ResolveRunnerUser(plan: Plan, proposal: Credential) returns (r: Option<Credential>)
      requires Valid(state) && proposal.userId.None?
      modifies this
      ensures Valid(state) && Extends(old(state), state) && state.runners == old(state.runners)
      ensures r.Some? ==>
        Stored(state, plan) && state.keychain[plan].credential == r.value && Names(state, plan, r.value)
      ensures OnlyFor(old(state), state, plan, Email(old(state), plan, proposal))
      ensures Resolvable(old(state), plan, proposal) ==> Resolvable(state, plan, proposal)
      ensures old(faults) == [] ==> faults == [] && (r.Some? <==> Resolvable(old(state), plan, proposal))
    {
      r := Recall(plan, proposal);
      if r.None? { return; }
      ghost var recalled := state;
      r := Identify(plan, r.value);
      ExtendsTransitive(old(state), recalled, state);
    }

    /** The ledger accepts a plan's runner once and answers whether it was new; a different runner for a
        provisioned plan is an error. */
    method ProvisionRunner(plan: Plan, runner: Runner) returns (ok: bool, created: bool)
      modifies this
      ensures state == old(state)
           || (plan !in old(state.runners) && state == old(state).(runners := old(state.runners)[plan := runner]))
      ensures ok ==>
        plan in state.runners && state.runners[plan] == runner && (created <==> plan !in old(state.runners))
      ensures old(faults) == [] ==>
        faults == [] && (ok <==> plan !in old(state.runners) || old(state.runners)[plan] == runner)
    {
      var fault := NextFault();
      ok, created := fault.Works?, plan !in state.runners;
      if !created {
        ok := ok && state.runners[plan] == runner;
      } else if Takes(fault) {
        state := state.(runners := state.runners[plan := runner]);
      }
    }

    method ProvisionPlan(plan: Plan, proposal: Credential) returns (ok: bool, created: bool)
      requires Valid(state) && proposal.userId.None?
      modifies this
      ensures Valid(state) && Extends(old(state), state)
      ensures state.runners.Keys <= old(state.runners.Keys) + {plan}
      ensures ok ==> Provisioned(state, plan) && (created <==> plan !in old(state.runners))
      ensures OnlyFor(old(state), state, plan, Email(old(state), plan, proposal))
      ensures old(faults) == [] && Completable(old(state), plan, proposal) ==> ok && faults == []
    {
      created := false;
      var r := ResolveRunnerUser(plan, proposal);
      if r.None? { return false, false; }
      ghost var resolved := state;
      assert ItemExtends(old(state), resolved, plan);
      ok, created := ProvisionRunner(plan, Runner(r.value.userId.value, r.value.email));
      ExtendsTransitive(old(state), resolved, state);
    }

    /** One turn of the provision loop, given how far a run that began in `start` has come. */
    method ProvisionNext(i: nat, proposal: Credential, ghost start: State, count: nat) returns (next: Option<nat>)
      requires i < |PLANS| && Progress(start, state, FirstPlans(i), count) && proposal.userId.None?
      modifies this
      ensures Valid(state) && Extends(start, state)
      ensures next.Some? ==> Progress(start, state, FirstPlans(i + 1), next.value)
      ensures OnlyFor(old(state), state, PLANS[i], Email(old(state), PLANS[i], proposal))
      ensures Extends(old(state), state) && state.runners.Keys <= old(state.runners.Keys) + {PLANS[i]}
      ensures old(faults) == [] && Completable(old(state), PLANS[i], proposal) ==> next.Some? && faults == []
    {
      ghost var before := state;
      var ok, created := ProvisionPlan(PLANS[i], proposal);
      ExtendsTransitive(start, before, state);
      if !ok { return None; }
      next := Some(if created then count + 1 else count);
      NextPlan(i);
      PlanDone(start, before, state, FirstPlans(i), PLANS[i], count, created);
    }

    method ProvisionAll(basic: Credential, standard: Credential) returns (count: Option<nat>)
      requires Valid(state) && basic.userId.None? && standard.userId.None?
      modifies this
      ensures Valid(state) && Extends(old(state), state)
      ensures count.Some? ==> Progress(old(state), state, FirstPlans(|PLANS|), count.value)
      ensures old(faults) == [] && CanComplete(old(state), basic, standard) ==> count.Some? && faults == []
    {
      var createdCount := 0;
      ghost var start, works := state, faults == [] && CanComplete(state, basic, standard);
      NothingDone(state);
      for i := 0 to |PLANS|
        invariant Progress(start, state, FirstPlans(i), createdCount)
        invariant works ==> faults == [] && (i == 0 ==> CanComplete(state, basic, standard))
        invariant works && i == 1 ==> Completable(state, Standard, standard)
      {
        ghost var before := state;
        var next := ProvisionNext(i, if PLANS[i].Basic? then basic else standard, start, createdCount);
        if next.None? { return None; }
        if works && i == 0 {
          StaysCompletable(before, state, Basic, Email(before, Basic, basic), Standard, standard);
        }
        createdCount := next.value;
      }
      return Some(createdCount);
    }

    /** A provision run: every plan in turn, then the list of the provisioned plans is checked. However it
        ends, what was stored before is kept and each plan has caused at most one user. A run that
        completes leaves every plan provisioned with the user its credential names and reports how many
        of them were new; it completes when every call works and both plans can be completed. */
    method Provision(basic: Credential, standard: Credential) returns (createdCount: Option<nat>)
      requires Valid(state) && basic.userId.None? && standard.userId.None?
      modifies this
      ensures Valid(state) && Extends(old(state), state)
      ensures createdCount.Some? ==>
        && (forall plan :: Provisioned(state, plan))
        && createdCount.value == |state.runners.Keys - old(state.runners.Keys)|
      ensures old(faults) == [] && CanComplete(old(state), basic, standard) ==> createdCount.Some?
    {
      createdCount := ProvisionAll(basic, standard);
      if createdCount.None? { return; }
      EveryPlan(state, FirstPlans(|PLANS|), old(state.runners.Keys));
      var listed := NextFault();
      if !listed.Works? { createdCount := None; }
    }
  }

  // ---- Any number of runs ----

  /** One invocation: how its external calls go, and the credentials it would generate. */
  datatype Script = Script(faults: seq<Fault>, basic: Credential, standard: Credential)

  predicate Proposes(script: Script) { script.basic.userId.None? && script.standard.userId.None? }

  /** The users from the given one on were created for pairwise different plans. */
  ghost predicate OneUserPerPlan(users: seq<User>, from: nat) {
    forall u, v :: from <= u < v < |users| ==>
      users[u].plan.Some? && users[v].plan.Some? && users[u].plan != users[v].plan
  }

  lemma CreatedOnce(s: State, t: State)
    requires s.created == [] && Extends(s, t) && Valid(t)
    ensures OneUserPerPlan(t.users, |s.users|)
  {
    forall u | |s.users| <= u < |t.users|
      ensures t.created[u - |s.users|].1 == u && t.users[u].plan == Some(t.created[u - |s.users|].0)
    {}
  }

  /** Run after run, each crashing wherever it may: what is stored stays, and of all the auth users that
      were not there at the beginning there is at most one for each plan. */
  method AnyNumberOfRuns(start: State, scripts: seq<Script>) returns (end: State)
    requires UniqueEmails(start.users) && start.created == []
    requires forall i :: 0 <= i < |scripts| ==> Proposes(scripts[i])
    ensures Extends(start, end) && OneUserPerPlan(end.users, |start.users|)
  {
    end := start;
    NothingDone(start);
    for i := 0 to |scripts|
      invariant Valid(end) && Extends(start, end)
    {
      var rollout := new Rollout(end, scripts[i].faults);
      var ignored := rollout.Provision(scripts[i].basic, scripts[i].standard);
      ExtendsTransitive(start, end, rollout.state);
      end := rollout.state;
    }
    CreatedOnce(start, end);
  }
}
