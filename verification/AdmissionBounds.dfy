/** The plain capacity bounds, on all active leases and not only the first-granted ones: exactly which
    runs keep them, and runs that do not. The re-grant branch of acquire tests no capacity. */
module AdmissionBounds {
  import opened Admission
  import opened AdmissionRuns
  import opened Basics

  // ---- Counting one group of leases ----

  /** The active leases whose input is of the group. */
  function ActiveWhere(leases: map<Key, Lease>, group: Input -> bool): set<Key> {
    set k | k in leases && Active(leases[k]) && group(leases[k].input)
  }

  function OfRole(role: Role, provider: Provider): Input -> bool {
    (input: Input) => input.key.role == role && input.key.provider == provider
  }

  function OfBudget(budget: string): Input -> bool { (input: Input) => input.budget == budget }

  function OfRelationship(budget: string): Input -> bool {
    (input: Input) => input.budget == budget && !input.key.provider.Gemini?
  }

  lemma Groups(leases: map<Key, Lease>, role: Role, provider: Provider, budget: string)
    ensures ActiveWhere(leases, OfRole(role, provider)) == ActiveGlobal(leases, role, provider)
    ensures ActiveWhere(leases, OfBudget(budget)) == ActiveBudget(leases, budget)
    ensures ActiveWhere(leases, OfRelationship(budget)) <= ActiveBudget(leases, budget)
  {}

  /** The operation re-grants a lease of the group although the group is at its limit. */
  predicate RegrantsFull(s: State, op: Op, group: Input -> bool, limit: nat) {
    op.Acquire? && Regrantable(s, op.input.key) && group(op.input) && |ActiveWhere(s.leases, group)| >= limit
  }

  /** A first grant of the operation tests the group's limit. */
  ghost predicate Tested(op: Op, group: Input -> bool, limit: nat) {
    op.Acquire? && group(op.input) ==>
      forall s :: !Full(s, op.input) ==> |ActiveWhere(s.leases, group)| < limit
  }

  // ---- One operation ----

  lemma GrantShape(s: State, op: Op)
    requires op.Acquire? && Apply(s, op).1.Granted?
    ensures var (s', reply) := Apply(s, op);
      && s'.leases == s.leases[op.input.key := reply.lease]
      && Active(reply.lease) && reply.lease.input == op.input
    ensures op.input.key in s.leases ==> !Active(s.leases[op.input.key])
  {}

  lemma AddToGroup(leases: map<Key, Lease>, lease: Lease, group: Input -> bool)
    requires Active(lease) && (lease.input.key in leases ==> !Active(leases[lease.input.key]))
    ensures |ActiveWhere(leases[lease.input.key := lease], group)|
         == |ActiveWhere(leases, group)| + if group(lease.input) then 1 else 0
  {
    var before, after := ActiveWhere(leases, group), ActiveWhere(leases[lease.input.key := lease], group);
    assert after == if group(lease.input) then before + {lease.input.key} else before;
  }

  lemma GrantCounts(s: State, op: Op, group: Input -> bool)
    requires op.Acquire? && Apply(s, op).1.Granted?
    ensures |ActiveWhere(Apply(s, op).0.leases, group)|
         == |ActiveWhere(s.leases, group)| + if group(op.input) then 1 else 0
  {
    GrantShape(s, op);
    AddToGroup(s.leases, Apply(s, op).1.lease, group);
  }

  /** A grant reports the number of leases of its role and provider that are active once it is made, and a
      first grant keeps its budget within the limit it reports. */
  lemma GrantReportsUse(s: State, input: Input, token: Uuid)
    requires ApplyAcquire(s, input, token).1.Granted?
    ensures var (s', reply) := ApplyAcquire(s, input, token);
      && reply.lease.activeCount == |ActiveGlobal(s'.leases, input.key.role, input.key.provider)|
      && (input.key !in s.leases ==> |ActiveBudget(s'.leases, input.budget)| <= reply.lease.maxActive)
  {
    var op, s' := Acquire(input, token), ApplyAcquire(s, input, token).0;
    GrantCounts(s, op, OfRole(input.key.role, input.key.provider));
    GrantCounts(s, op, OfBudget(input.budget));
    Groups(s.leases, input.key.role, input.key.provider, input.budget);
    Groups(s'.leases, input.key.role, input.key.provider, input.budget);
  }

  lemma OthersShrink(s: State, op: Op, group: Input -> bool)
    requires !(op.Acquire? && Apply(s, op).1.Granted?)
    ensures |ActiveWhere(Apply(s, op).0.leases, group)| <= |ActiveWhere(s.leases, group)|
  {
    var before, after := ActiveWhere(s.leases, group), ActiveWhere(Apply(s, op).0.leases, group);
    forall k | k in after ensures k in before {
      StepShape(s, op, k);
    }
    SubsetIsSmaller(after, before);
  }

  /** An operation keeps a bound exactly when it is not a re-grant into the full group. */
  lemma StepExactly(s: State, op: Op, group: Input -> bool, limit: nat)
    requires |ActiveWhere(s.leases, group)| <= limit && Tested(op, group, limit)
    ensures |ActiveWhere(Apply(s, op).0.leases, group)| <= limit <==> !RegrantsFull(s, op, group, limit)
  {
    if op.Acquire? && Apply(s, op).1.Granted? {
      GrantCounts(s, op, group);
    } else {
      OthersShrink(s, op, group);
    }
  }

  /** The bound of a role survives an acquire exactly when it is not a re-grant into the full role. */
  lemma PlainBoundExactly(s: State, input: Input, token: Uuid)
    requires |ActiveGlobal(s.leases, input.key.role, input.key.provider)|
          <= GlobalLimit(input.key.role, input.key.provider)
    ensures var s' := ApplyAcquire(s, input, token).0;
      |ActiveGlobal(s'.leases, input.key.role, input.key.provider)|
        <= GlobalLimit(input.key.role, input.key.provider)
      <==>
      !(Regrantable(s, input.key)
        && |ActiveGlobal(s.leases, input.key.role, input.key.provider)|
           == GlobalLimit(input.key.role, input.key.provider))
  {
    var role, provider := input.key.role, input.key.provider;
    RoleIsTested(Acquire(input, token), role, provider);
    Groups(s.leases, role, provider, input.budget);
    Groups(ApplyAcquire(s, input, token).0.leases, role, provider, input.budget);
    StepExactly(s, Acquire(input, token), OfRole(role, provider), GlobalLimit(role, provider));
  }

  /** The bound of a budget survives an acquire exactly when it is not a re-grant into the full budget. */
  lemma BudgetBoundExactly(s: State, input: Input, token: Uuid)
    requires |ActiveBudget(s.leases, input.budget)| <= BudgetLimit(input)
    ensures var s' := ApplyAcquire(s, input, token).0;
      |ActiveBudget(s'.leases, input.budget)| <= BudgetLimit(input)
      <==> !(Regrantable(s, input.key) && |ActiveBudget(s.leases, input.budget)| == BudgetLimit(input))
  {
    var op := Acquire(input, token);
    BudgetIsTested(op, input.budget, BudgetLimit(input));
    Groups(s.leases, input.key.role, input.key.provider, input.budget);
    Groups(ApplyAcquire(s, input, token).0.leases, input.key.role, input.key.provider, input.budget);
    StepExactly(s, op, OfBudget(input.budget), BudgetLimit(input));
  }

  lemma RoleIsTested(op: Op, role: Role, provider: Provider)
    ensures Tested(op, OfRole(role, provider), GlobalLimit(role, provider))
  {
    forall s | op.Acquire? && OfRole(role, provider)(op.input) && !Full(s, op.input)
      ensures |ActiveWhere(s.leases, OfRole(role, provider))| < GlobalLimit(role, provider)
    {
      Groups(s.leases, role, provider, op.input.budget);
    }
  }

  lemma BudgetIsTested(op: Op, budget: string, limit: nat)
    requires op.Acquire? && op.input.budget == budget ==> BudgetLimit(op.input) == limit
    ensures Tested(op, OfBudget(budget), limit)
  {
    forall s | op.Acquire? && OfBudget(budget)(op.input) && !Full(s, op.input)
      ensures |ActiveWhere(s.leases, OfBudget(budget))| < limit
    {
      Groups(s.leases, op.input.key.role, op.input.key.provider, budget);
    }
  }

  lemma RelationshipIsTested(op: Op, budget: string)
    requires IsRelationship(budget)
    ensures Tested(op, OfRelationship(budget), 4)
  {
    forall s | op.Acquire? && OfRelationship(budget)(op.input) && !Full(s, op.input)
      ensures |ActiveWhere(s.leases, OfRelationship(budget))| < 4
    {
      Groups(s.leases, op.input.key.role, op.input.key.provider, budget);
      SubsetIsSmaller(ActiveWhere(s.leases, OfRelationship(budget)), ActiveBudget(s.leases, budget));
    }
  }

  // ---- Whole runs ----

  /** The bound holds in every state of the run. */
  predicate AlwaysWithin(s: State, ops: seq<Op>, group: Input -> bool, limit: nat)
    decreases ops
  {
    |ActiveWhere(s.leases, group)| <= limit
    && (ops == [] || AlwaysWithin(Apply(s, ops[0]).0, ops[1..], group, limit))
  }

  /** No operation of the run re-grants a lease of the group while the group is at its limit. */
  predicate NeverRegrantsFull(s: State, ops: seq<Op>, group: Input -> bool, limit: nat)
    decreases ops
  {
    ops == []
    || (!RegrantsFull(s, ops[0], group, limit) && NeverRegrantsFull(Apply(s, ops[0]).0, ops[1..], group, limit))
  }

  lemma {:induction false} RunExactly(s: State, ops: seq<Op>, group: Input -> bool, limit: nat)
    requires |ActiveWhere(s.leases, group)| <= limit
    requires forall i :: 0 <= i < |ops| ==> Tested(ops[i], group, limit)
    ensures AlwaysWithin(s, ops, group, limit) <==> NeverRegrantsFull(s, ops, group, limit)
    decreases ops
  {
    if ops != [] {
      StepExactly(s, ops[0], group, limit);
      if !RegrantsFull(s, ops[0], group, limit) {
        RunExactly(Apply(s, ops[0]).0, ops[1..], group, limit);
      }
    }
  }

  /** From the start every state of a run keeps the role's bound exactly when the run never re-grants
      into the full role. */
  lemma RoleBoundExactly(start: State, ops: seq<Op>, role: Role, provider: Provider)
    requires Init(start)
    ensures AlwaysWithin(start, ops, OfRole(role, provider), GlobalLimit(role, provider))
       <==> NeverRegrantsFull(start, ops, OfRole(role, provider), GlobalLimit(role, provider))
  {
    assert ActiveWhere(start.leases, OfRole(role, provider)) == {};
    forall i | 0 <= i < |ops| ensures Tested(ops[i], OfRole(role, provider), GlobalLimit(role, provider)) {
      RoleIsTested(ops[i], role, provider);
    }
    RunExactly(start, ops, OfRole(role, provider), GlobalLimit(role, provider));
  }

  /** The same for any relationship budget and the limit of four non-Gemini leases. */
  lemma RelationshipBoundExactly(start: State, ops: seq<Op>, budget: string)
    requires Init(start) && IsRelationship(budget)
    ensures AlwaysWithin(start, ops, OfRelationship(budget), 4)
       <==> NeverRegrantsFull(start, ops, OfRelationship(budget), 4)
  {
    assert ActiveWhere(start.leases, OfRelationship(budget)) == {};
    forall i | 0 <= i < |ops| ensures Tested(ops[i], OfRelationship(budget), 4) {
      RelationshipIsTested(ops[i], budget);
    }
    RunExactly(start, ops, OfRelationship(budget), 4);
  }

  // ---- Runs that exceed the bounds ----

  /** Inputs of one role, provider and budget with distinct keys. */
  ghost predicate Family(f: nat -> Input, role: Role, provider: Provider, budget: string) {
    && (forall i :: f(i).key.role == role && f(i).key.provider == provider && f(i).budget == budget)
    && (forall i, k :: f(i).key == f(k).key ==> i == k)
  }

  function Acquires(f: nat -> Input, n: nat): seq<Op> {
    if n == 0 then [] else Acquires(f, n - 1) + [Acquire(f(n), Uuid(9, n))]
  }

  function RejectFirst(f: nat -> Input): seq<Op> {
    [Acquire(f(0), Uuid(9, 0)), Release(f(0).key, Uuid(9, 0), 1, PrestartRejected)]
  }

  /** One input is acquired and rejected before its start, others fill the limit, and it comes back. */
  function Overshoot(f: nat -> Input, n: nat): seq<Op> {
    RejectFirst(f) + Acquires(f, n) + [Acquire(f(0), Uuid(9, n + 1))]
  }

  /** Inputs 1 .. n are active and nothing else is; input 0 was rejected before its start. */
  ghost predicate Filled(s: State, f: nat -> Input, role: Role, provider: Provider, budget: string, n: nat) {
    && Regrantable(s, f(0).key)
    && (forall i :: n < i ==> f(i).key !in s.leases)
    && |ActiveBudget(s.leases, budget)| == n && |ActiveGlobal(s.leases, role, provider)| == n
  }

  lemma FillStart(s: State, f: nat -> Input, role: Role, provider: Provider, budget: string)
    requires Init(s) && Family(f, role, provider, budget) && f(0).seconds > 0
    ensures Filled(Run(s, RejectFirst(f)), f, role, provider, budget, 0)
  {
    assert ActiveBudget(s.leases, budget) == {} == ActiveGlobal(s.leases, role, provider);
    assert f(0).key.role == role && f(0).key.provider == provider && f(0).budget == budget;
    var first := Apply(s, RejectFirst(f)[0]).0;
    var t := Apply(first, RejectFirst(f)[1]).0;
    assert first.leases == map[f(0).key := Create(s, f(0), Uuid(9, 0))];
    assert RejectFirst(f) == [RejectFirst(f)[0]] + [RejectFirst(f)[1]];
    RunSnoc(s, [RejectFirst(f)[0]], RejectFirst(f)[1]);
    RunSnoc(s, [], RejectFirst(f)[0]);
    assert [] + [RejectFirst(f)[0]] == [RejectFirst(f)[0]];
    assert ActiveBudget(t.leases, budget) == {} == ActiveGlobal(t.leases, role, provider);
  }

  lemma FillOne(s: State, f: nat -> Input, role: Role, provider: Provider, budget: string, n: nat)
    requires Family(f, role, provider, budget) && Filled(s, f, role, provider, budget, n)
    requires n < BudgetLimit(f(n + 1)) && n < GlobalLimit(role, provider)
    ensures Filled(Apply(s, Acquire(f(n + 1), Uuid(9, n + 1))).0, f, role, provider, budget, n + 1)
  {
    var input := f(n + 1);
    assert input.key.role == role && input.key.provider == provider && input.budget == budget;
    var op := Acquire(input, Uuid(9, n + 1));
    GrantCounts(s, op, OfRole(role, provider));
    GrantCounts(s, op, OfBudget(budget));
    Groups(s.leases, role, provider, budget);
    Groups(Apply(s, op).0.leases, role, provider, budget);
    assert f(0).key != input.key;
  }

  lemma {:induction false} Fill(s: State, f: nat -> Input, role: Role, provider: Provider, budget: string, n: nat)
    requires Init(s) && Family(f, role, provider, budget) && f(0).seconds > 0
    requires n <= GlobalLimit(role, provider) && forall i :: BudgetLimit(f(i)) >= n
    ensures Filled(Run(s, RejectFirst(f) + Acquires(f, n)), f, role, provider, budget, n)
    decreases n
  {
    if n == 0 {
      FillStart(s, f, role, provider, budget);
      assert RejectFirst(f) + Acquires(f, 0) == RejectFirst(f);
    } else {
      Fill(s, f, role, provider, budget, n - 1);
      FillNext(s, f, role, provider, budget, n - 1, RejectFirst(f) + Acquires(f, n - 1));
      assert RejectFirst(f) + Acquires(f, n)
          == RejectFirst(f) + Acquires(f, n - 1) + [Acquire(f(n), Uuid(9, n))];
    }
  }

  lemma FillNext(s: State, f: nat -> Input, role: Role, provider: Provider, budget: string, n: nat, before: seq<Op>)
    requires Family(f, role, provider, budget) && Filled(Run(s, before), f, role, provider, budget, n)
    requires n < BudgetLimit(f(n + 1)) && n < GlobalLimit(role, provider)
    ensures Filled(Run(s, before + [Acquire(f(n + 1), Uuid(9, n + 1))]), f, role, provider, budget, n + 1)
  {
    FillOne(Run(s, before), f, role, provider, budget, n);
    RunSnoc(s, before, Acquire(f(n + 1), Uuid(9, n + 1)));
  }

  /** The overshooting run leaves one active lease more than its inputs' budget limit, in the budget and
      in the role. */
  lemma OvershootCounts(start: State, f: nat -> Input, role: Role, provider: Provider, budget: string, n: nat)
    requires Init(start) && Family(f, role, provider, budget) && f(0).seconds > 0
    requires n <= GlobalLimit(role, provider) && forall i :: BudgetLimit(f(i)) >= n
    ensures var s := Run(start, Overshoot(f, n));
      |ActiveBudget(s.leases, budget)| == n + 1 && |ActiveGlobal(s.leases, role, provider)| == n + 1
  {
    var before, last := RejectFirst(f) + Acquires(f, n), Acquire(f(0), Uuid(9, n + 1));
    Fill(start, f, role, provider, budget, n);
    RunSnoc(start, before, last);
    var s := Run(start, before);
    assert f(0).key.role == role && f(0).key.provider == provider && f(0).budget == budget;
    Groups(s.leases, role, provider, budget);
    Groups(Apply(s, last).0.leases, role, provider, budget);
    GrantCounts(s, last, OfBudget(budget));
    GrantCounts(s, last, OfRole(role, provider));
  }

  /** The paid relationship requests on the secondary slot. */
  function Relationship(i: nat): Input {
    Input(Key(Paid, Apify, "secondary", Uuid(2, 910000 + i), "track:relationships:collect",
              Operation("relationship-followers", i)),
          "paid:apify:secondary:relationship", Uuid(4, 910000 + i), Uuid(4, 910000 + i), 12)
  }

  const RELATIONSHIP := "paid:apify:secondary:relationship"

  /** A reachable state with five active leases in a relationship budget of four. */
  lemma OvershootExceedsBudget(start: State)
    requires Init(start)
    ensures |ActiveBudget(Run(start, Overshoot(Relationship, 4)).leases, RELATIONSHIP)| == 5
  {
    assert IsRelationship(RELATIONSHIP);
    OvershootCounts(start, Relationship, Paid, Apify, RELATIONSHIP, 4);
  }

  /** Ordinary requests of one role and provider. */
  function Ordinary(role: Role, provider: Provider): nat -> Input {
    (i: nat) => Input(Key(role, provider, "primary", Uuid(1, i), "job", Operation("operation", i)),
                      "", Uuid(3, i), Uuid(3, i), 120)
  }

  /** For every role and provider a reachable state has one active lease more than its limit. */
  lemma OvershootExceedsRole(start: State, role: Role, provider: Provider)
    requires Init(start)
    ensures |ActiveGlobal(Run(start, Overshoot(Ordinary(role, provider), GlobalLimit(role, provider))).leases,
                          role, provider)|
         == GlobalLimit(role, provider) + 1
  {
    OvershootCounts(start, Ordinary(role, provider), role, provider, "", GlobalLimit(role, provider));
  }
}
