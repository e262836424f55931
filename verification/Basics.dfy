/** Values, and one fact about sets, shared by the models. */
module Basics {
  datatype Option<+T> = None | Some(value: T)

  /** The two workload roles of the harness. */
  datatype Role = Preflight | Paid

  /** Deterministic UUIDs carry a prefix and an index; random ones are arbitrary values. */
  datatype Uuid = Uuid(prefix: nat, index: nat)

  lemma {:induction false} SubsetIsSmaller<T>(a: set<T>, b: set<T>)
    requires a <= b
    ensures |a| <= |b|
    decreases |a|
  {
    if a != {} {
      var x :| x in a;
      SubsetIsSmaller(a - {x}, b - {x});
    }
  }

  ghost predicate Link<T>(next: T -> Option<T>, trace: seq<T>, i: nat)
    requires i + 1 < |trace|
  {
    next(trace[i]) == Some(trace[i + 1])
  }

  /** The states on the way from one to the other. */
  ghost predicate Trace<T>(next: T -> Option<T>, a: T, b: T, trace: seq<T>) {
    && |trace| > 0 && trace[0] == a && trace[|trace| - 1] == b
    && forall i: nat :: i + 1 < |trace| ==> Link(next, trace, i)
  }

  /** Some number of steps leads from one state to the other. */
  ghost predicate Way<T(!new)>(next: T -> Option<T>, a: T, b: T) { exists trace :: Trace(next, a, b, trace) }

  lemma WayOn<T(!new)>(next: T -> Option<T>, a: T, b: T, c: T)
    requires Way(next, a, b) && Way(next, b, c)
    ensures Way(next, a, c)
  {
    var first :| Trace(next, a, b, first);
    var second :| Trace(next, b, c, second);
    var all := first + second[1..];
    forall i: nat | i + 1 < |all| ensures Link(next, all, i) {
      if i + 1 < |first| {
        assert Link(next, first, i);
      } else {
        assert Link(next, second, i + 1 - |first|);
      }
    }
    assert Trace(next, a, c, all);
  }

  lemma OneStep<T(!new)>(next: T -> Option<T>, a: T, b: T)
    requires next(a) == Some(b)
    ensures Way(next, a, b)
  {
    assert Trace(next, a, b, [a, b]);
  }

  lemma NoStep<T(!new)>(next: T -> Option<T>, a: T)
    ensures Way(next, a, a)
  {
    assert Trace(next, a, a, [a]);
  }

  lemma TraceRest<T>(next: T -> Option<T>, a: T, b: T, trace: seq<T>)
    requires Trace(next, a, b, trace) && |trace| > 1
    ensures next(a) == Some(trace[1]) && Trace(next, trace[1], b, trace[1..])
  {
    assert Link(next, trace, 0);
    forall i: nat | i + 1 < |trace[1..]| ensures Link(next, trace[1..], i) {
      assert Link(next, trace, i + 1);
    }
  }
}
