/** The bounded polling by which the profile-repair canary settles the actual cost of a run. */
module RepairAccounting {
  import opened Basics
  import opened CanaryJournal

  const LIMIT_MS: nat := 180_000
  const INTERVAL_MS: nat := 5_000
  const MAX_POLLS: nat := 37
  const STABILITY_MS: nat := 30_000

  /** What the provider reports of a run; the usage is in micro-dollars and may be out of range. */
  datatype Snapshot = Snapshot(terminal: bool, finishedAt: Option<nat>, usage: Option<int>)

  /** The answer to one lookup and the time it takes to arrive. A failed lookup answers nothing. */
  datatype Probe = Probe(answer: Option<Snapshot>, took: nat)

  predicate Acceptable(answer: Option<Snapshot>, now: nat) {
    && answer.Some? && answer.value.terminal
    && answer.value.finishedAt.Some? && answer.value.finishedAt.value + STABILITY_MS <= now
    && answer.value.usage.Some? && 0 <= answer.value.usage.value <= MAX_RUN_CHARGE
  }

  function Min(a: nat, b: nat): nat { if a < b then a else b }

  /** The clock just before poll `k`, if there is one, and when its answer is judged. */
  function Before(start: nat, probes: seq<Probe>, k: nat): (r: nat)
    requires k <= |probes|
    ensures start <= r <= start + LIMIT_MS
    decreases k, 0
  {
    if k == 0 then start
    else
      var after := After(start, probes, k - 1);
      after + Min(INTERVAL_MS, start + LIMIT_MS - after)
  }

  function After(start: nat, probes: seq<Probe>, k: nat): (r: nat)
    requires k < |probes|
    ensures start <= r <= start + LIMIT_MS
    decreases k, 1
  {
    Min(Before(start, probes, k) + probes[k].took, start + LIMIT_MS)
  }

  /** Poll `k` is made before the deadline, answered before it, and the answer settles the cost. */
  predicate SettledAt(start: nat, probes: seq<Probe>, k: nat)
    requires k < |probes|
  {
    Before(start, probes, k) + probes[k].took < start + LIMIT_MS
    && Acceptable(probes[k].answer, After(start, probes, k))
  }

  lemma {:induction false} DeadlineStays(start: nat, probes: seq<Probe>, k: nat, later: nat)
    requires k <= later < |probes| && Before(start, probes, k) >= start + LIMIT_MS
    ensures !SettledAt(start, probes, later)
    decreases later - k
  {
    if k < later {
      assert Before(start, probes, k + 1) == start + LIMIT_MS;
      DeadlineStays(start, probes, k + 1, later);
    }
  }

  /** The cost is that of the first of the 37 polls whose answer settles it, if any does; the wait
      never exceeds the limit. */
  method ReconcileUsage(start: nat, probes: seq<Probe>) returns (cost: Option<nat>, polls: nat, end: nat)
    requires |probes| >= MAX_POLLS
    ensures polls <= 37 && start <= end <= start + 180_000
    ensures cost.Some? ==>
      && polls > 0 && SettledAt(start, probes, polls - 1) && end == After(start, probes, polls - 1)
      && probes[polls - 1].answer.value.usage == Some(cost.value)
      && forall k :: 0 <= k < polls - 1 ==> !SettledAt(start, probes, k)
    ensures cost.Some? ==>
      var settled := probes[polls - 1].answer.value;
      settled.terminal && settled.finishedAt.Some? && settled.finishedAt.value + 30_000 <= end && cost.value <= 50_000
    ensures cost.None? ==> forall k :: 0 <= k < MAX_POLLS ==> !SettledAt(start, probes, k)
  {
    var deadline := start + LIMIT_MS;
    var now := start;
    polls := 0;
    while polls < MAX_POLLS
      invariant polls <= MAX_POLLS && now == Before(start, probes, polls)
      invariant forall k :: 0 <= k < polls ==> !SettledAt(start, probes, k)
    {
      if now >= deadline {
        forall k | polls <= k < MAX_POLLS ensures !SettledAt(start, probes, k) {
          DeadlineStays(start, probes, polls, k);
        }
        return None, polls, now;
      }
      var remaining := deadline - now;
      var probe := probes[polls];
      var answer := if probe.took < remaining then probe.answer else None;
      now := now + Min(probe.took, remaining);
      if Acceptable(answer, now) {
        return Some(answer.value.usage.value), polls + 1, now;
      }
      assert !SettledAt(start, probes, polls);
      if polls == MAX_POLLS - 1 {
        return None, polls + 1, now;
      }
      now := now + Min(INTERVAL_MS, deadline - now);
      polls := polls + 1;
    }
    return None, polls, now;
  }
}
