/** The eight fenced Gemini slots behind the lease RPC of the capacity harness. */
module GeminiSlots {
  import opened Basics

  const SLOTS: nat := 8

  datatype Identity = Identity(request: Uuid, job: string, operation: string, attempt: nat)

  datatype Slot = Slot(fence: nat, claim: Option<Uuid>, identity: Option<Identity>)

  datatype SlotOp =
    | Take(identity: Identity, claim: Uuid)
    | Give(slot: nat, claim: Uuid, fence: nat)

  datatype SlotReply =
    | Taken(slot: nat, claim: Uuid, fence: nat)
    | Pending
    | Given(released: bool, fence: nat)

  /** A slot is claimed exactly when it has an identity, and no identity has two slots. */
  ghost predicate Valid(t: seq<Slot>) {
    && |t| == SLOTS
    && (forall i :: 0 <= i < |t| ==> (t[i].claim.None? <==> t[i].identity.None?))
    && (forall i, j ::
          (0 <= i < |t| && 0 <= j < |t| && t[i].identity.Some? && t[i].identity == t[j].identity)
          ==> i == j)
  }

  predicate AllFree(t: seq<Slot>) {
    |t| == SLOTS && forall i :: 0 <= i < |t| ==> t[i] == Slot(0, None, None)
  }

  /** The first slot at or after `i` held by the identity; the table's length if none. */
  function FirstHeldBy(t: seq<Slot>, identity: Identity, i: nat): (r: nat)
    requires i <= |t|
    ensures i <= r <= |t|
    ensures forall k :: i <= k < r ==> t[k].identity != Some(identity)
    ensures r < |t| ==> t[r].identity == Some(identity)
    decreases |t| - i
  {
    if i == |t| || t[i].identity == Some(identity) then i else FirstHeldBy(t, identity, i + 1)
  }

  /** The first unclaimed slot at or after `i`; the table's length if none. */
  function FirstFree(t: seq<Slot>, i: nat): (r: nat)
    requires i <= |t|
    ensures i <= r <= |t|
    ensures forall k :: i <= k < r ==> t[k].claim.Some?
    ensures r < |t| ==> t[r].claim.None?
    decreases |t| - i
  {
    if i == |t| || t[i].claim.None? then i else FirstFree(t, i + 1)
  }

  /** Slots are numbered from one. */
  function Apply(t: seq<Slot>, op: SlotOp): (seq<Slot>, SlotReply) {
    match op
    case Take(identity, claim) =>
      var held := FirstHeldBy(t, identity, 0);
      if held < |t| then
        (t, Taken(held + 1, if t[held].claim.Some? then t[held].claim.value else claim, t[held].fence))
      else
        var free := FirstFree(t, 0);
        if free == |t| then (t, Pending)
        else
          (t[free := Slot(t[free].fence + 1, Some(claim), Some(identity))],
           Taken(free + 1, claim, t[free].fence + 1))
    case Give(slot, claim, fence) =>
      if slot == 0 || slot > |t| then (t, Given(false, 0))
      else
        var s := t[slot - 1];
        if s.claim != Some(claim) || s.fence != fence then (t, Given(false, s.fence))
        else (t[slot - 1 := Slot(s.fence, None, None)], Given(true, s.fence))
  }

  function Run(t: seq<Slot>, ops: seq<SlotOp>): seq<Slot>
    decreases ops
  {
    if ops == [] then t else Run(Apply(t, ops[0]).0, ops[1..])
  }

  /** The slot numbers and fences of the grants that claimed a free slot, in order. */
  function Grants(t: seq<Slot>, ops: seq<SlotOp>): seq<(nat, nat)>
    decreases ops
  {
    if ops == [] then []
    else
      var (t', reply) := Apply(t, ops[0]);
      (if reply.Taken? && t' != t then [(reply.slot, reply.fence)] else []) + Grants(t', ops[1..])
  }

  // ---- Every run ----

  ghost predicate NoFenceFalls(t: seq<Slot>, t': seq<Slot>) {
    |t| == |t'| && forall i :: 0 <= i < |t| ==> t[i].fence <= t'[i].fence
  }

  lemma StepKeepsValid(t: seq<Slot>, op: SlotOp)
    requires Valid(t)
    ensures var (t', reply) := Apply(t, op);
      && Valid(t') && NoFenceFalls(t, t')
      && (reply.Taken? ==> 1 <= reply.slot <= SLOTS && reply.fence == t'[reply.slot - 1].fence)
      && (reply.Taken? && t' != t ==> t[reply.slot - 1].fence < reply.fence)
  {}

  lemma {:induction false} RunKeepsValid(t: seq<Slot>, ops: seq<SlotOp>)
    requires Valid(t)
    ensures Valid(Run(t, ops)) && NoFenceFalls(t, Run(t, ops))
    decreases ops
  {
    if ops != [] {
      StepKeepsValid(t, ops[0]);
      RunKeepsValid(Apply(t, ops[0]).0, ops[1..]);
    }
  }

  /** 1 when the operation is a new grant. */
  function IsNew(t: seq<Slot>, op: SlotOp): nat {
    if Apply(t, op).1.Taken? && Apply(t, op).0 != t then 1 else 0
  }

  lemma {:induction false} GrantsExceed(t: seq<Slot>, ops: seq<SlotOp>, k: nat)
    requires Valid(t) && k < |Grants(t, ops)|
    ensures var g := Grants(t, ops)[k]; 1 <= g.0 <= |t| && t[g.0 - 1].fence < g.1
    decreases ops
  {
    StepKeepsValid(t, ops[0]);
    if k >= IsNew(t, ops[0]) {
      GrantsExceed(Apply(t, ops[0]).0, ops[1..], k - IsNew(t, ops[0]));
    }
  }

  /** Each new grant of a slot carries a larger fence than every earlier grant of that slot. */
  lemma {:induction false} GrantFencesRise(t: seq<Slot>, ops: seq<SlotOp>, j: nat, k: nat)
    requires Valid(t) && j < k < |Grants(t, ops)|
    requires Grants(t, ops)[j].0 == Grants(t, ops)[k].0
    ensures Grants(t, ops)[j].1 < Grants(t, ops)[k].1
    decreases ops
  {
    var t', first := Apply(t, ops[0]).0, IsNew(t, ops[0]);
    StepKeepsValid(t, ops[0]);
    var later := Grants(t', ops[1..]);
    assert Grants(t, ops)[k] == later[k - first];
    if j < first {
      GrantsExceed(t', ops[1..], k - first);
    } else {
      assert Grants(t, ops)[j] == later[j - first];
      GrantFencesRise(t', ops[1..], j - first, k - first);
    }
  }

  /** Releasing with the fence of an earlier holder changes nothing at any later time, so it
      never frees the holder of that later time. */
  lemma StaleGiveIsRefused(t: seq<Slot>, ops: seq<SlotOp>, slot: nat, claim: Uuid, fence: nat)
    requires Valid(t) && 1 <= slot <= SLOTS && fence < t[slot - 1].fence
    ensures var later := Run(t, ops);
      && |later| == SLOTS
      && Apply(later, Give(slot, claim, fence)) == (later, Given(false, later[slot - 1].fence))
  {
    RunKeepsValid(t, ops);
  }

  /** Whatever else happens, a holder keeps its slot, with fence, claim and identity, until exactly this slot,
      claim and fence are given back; asked again its identity finds the same slot, and giving it back frees
      it. */
  lemma {:induction false} HolderKeepsSlot(t: seq<Slot>, ops: seq<SlotOp>, i: nat, claim: Uuid)
    requires Valid(t) && i < |t| && t[i].claim.Some?
    requires Give(i + 1, t[i].claim.value, t[i].fence) !in ops
    ensures var u := Run(t, ops);
      && |u| == |t| && u[i] == t[i]
      && Apply(u, Take(t[i].identity.value, claim)) == (u, Taken(i + 1, t[i].claim.value, t[i].fence))
      && Apply(u, Give(i + 1, t[i].claim.value, t[i].fence))
         == (u[i := Slot(t[i].fence, None, None)], Given(true, t[i].fence))
    decreases ops
  {
    if ops != [] {
      StepKeepsValid(t, ops[0]);
      HolderKeepsSlot(Apply(t, ops[0]).0, ops[1..], i, claim);
    }
  }

  /** An identity is told to wait exactly when it holds no slot and all eight are claimed; otherwise it has one
      afterwards, a free one under the new claim if it held none. */
  lemma TakeExactly(t: seq<Slot>, identity: Identity, claim: Uuid)
    requires Valid(t)
    ensures var (t', reply) := Apply(t, Take(identity, claim));
      && (reply.Pending? <==> forall i :: 0 <= i < |t| ==> t[i].claim.Some? && t[i].identity != Some(identity))
      && (reply.Taken? ==>
            && 1 <= reply.slot <= |t'| && t'[reply.slot - 1] == Slot(reply.fence, Some(reply.claim), Some(identity))
            && (t[reply.slot - 1].identity.None? ==> reply.claim == claim))
  {}

  // ---- The table object ----

  class SlotTable {
    const slots: array<Slot>

    ghost predicate Ok()
      reads this, slots
    {
      Valid(slots[..])
    }

    constructor ()
      ensures fresh(slots) && AllFree(slots[..]) && Ok()
    {
      slots := new Slot[SLOTS](_ => Slot(0, None, None));
    }

    method FindHeldBy(identity: Identity) returns (i: nat)
      ensures i == FirstHeldBy(slots[..], identity, 0)
    {
      i := 0;
      while i < slots.Length && slots[i].identity != Some(identity)
        invariant i <= slots.Length
        invariant FirstHeldBy(slots[..], identity, 0) == FirstHeldBy(slots[..], identity, i)
      {
        i := i + 1;
      }
    }

    method FindFree() returns (i: nat)
      ensures i == FirstFree(slots[..], 0)
    {
      i := 0;
      while i < slots.Length && slots[i].claim.Some?
        invariant i <= slots.Length
        invariant FirstFree(slots[..], 0) == FirstFree(slots[..], i)
      {
        i := i + 1;
      }
    }

    method Acquire(identity: Identity, claim: Uuid) returns (reply: SlotReply)
      requires Ok()
      modifies slots
      ensures Ok()
      ensures (slots[..], reply) == Apply(old(slots[..]), Take(identity, claim))
    {
      ghost var before := slots[..];
      var held := FindHeldBy(identity);
      if held < slots.Length {
        return Taken(held + 1, slots[held].claim.value, slots[held].fence);
      }
      var free := FindFree();
      if free == slots.Length {
        return Pending;
      }
      slots[free] := Slot(slots[free].fence + 1, Some(claim), Some(identity));
      assert slots[..] == before[free := slots[free]];
      return Taken(free + 1, claim, slots[free].fence);
    }

    method Release(slot: nat, claim: Uuid, fence: nat) returns (reply: SlotReply)
      requires Ok()
      modifies slots
      ensures Ok()
      ensures (slots[..], reply) == Apply(old(slots[..]), Give(slot, claim, fence))
    {
      ghost var before := slots[..];
      if slot == 0 || slot > slots.Length {
        return Given(false, 0);
      }
      var current := slots[slot - 1];
      if current.claim != Some(claim) || current.fence != fence {
        return Given(false, current.fence);
      }
      slots[slot - 1] := Slot(current.fence, None, None);
      assert slots[..] == before[slot - 1 := slots[slot - 1]];
      return Given(true, current.fence);
    }
  }
}
