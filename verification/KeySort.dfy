/** Stable sorting by a string key, as the parity comparison sorts rows and payload entries. */
module KeySort {
  /** Strings in code-point order. */
  predicate LessEq(a: string, b: string) {
    a == "" || (b != "" && (a[0] < b[0] || (a[0] == b[0] && LessEq(a[1..], b[1..]))))
  }

  lemma {:induction false} Total(a: string, b: string)
    ensures LessEq(a, b) || LessEq(b, a)
  {
    if a != "" && b != "" && a[0] == b[0] { Total(a[1..], b[1..]); }
  }

  lemma {:induction false} Antisymmetric(a: string, b: string)
    requires LessEq(a, b) && LessEq(b, a)
    ensures a == b
  {
    if a != "" {
      Antisymmetric(a[1..], b[1..]);
      assert a == [a[0]] + a[1..] && b == [b[0]] + b[1..];
    }
  }

  lemma {:induction false} Transitive(a: string, b: string, c: string)
    requires LessEq(a, b) && LessEq(b, c)
    ensures LessEq(a, c)
  {
    if a != "" && a[0] == b[0] && b[0] == c[0] { Transitive(a[1..], b[1..], c[1..]); }
  }

  function Insert<T>(x: T, s: seq<T>, key: T -> string): seq<T> {
    if s == [] || LessEq(key(x), key(s[0])) then [x] + s else [s[0]] + Insert(x, s[1..], key)
  }

  /** An element is put before later ones with the same key, so the sort is stable. */
  function Sort<T>(s: seq<T>, key: T -> string): seq<T> {
    if s == [] then [] else Insert(s[0], Sort(s[1..], key), key)
  }

  ghost predicate Sorted<T>(s: seq<T>, key: T -> string) {
    forall i, k :: 0 <= i < k < |s| ==> LessEq(key(s[i]), key(s[k]))
  }

  ghost predicate Unique<T>(s: seq<T>, key: T -> string) {
    forall i, k :: 0 <= i < k < |s| ==> key(s[i]) != key(s[k])
  }

  lemma {:induction false} InsertPermutes<T>(x: T, s: seq<T>, key: T -> string)
    ensures multiset(Insert(x, s, key)) == multiset(s) + multiset{x}
  {
    if s != [] && !LessEq(key(x), key(s[0])) {
      InsertPermutes(x, s[1..], key);
      assert s == [s[0]] + s[1..];
    }
  }

  lemma {:induction false} SortPermutes<T>(s: seq<T>, key: T -> string)
    ensures multiset(Sort(s, key)) == multiset(s)
  {
    if s != [] {
      SortPermutes(s[1..], key);
      InsertPermutes(s[0], Sort(s[1..], key), key);
      assert s == [s[0]] + s[1..];
    }
  }

  lemma {:induction false} InsertSorts<T>(x: T, s: seq<T>, key: T -> string)
    requires Sorted(s, key)
    ensures Sorted(Insert(x, s, key), key)
  {
    if s == [] {
    } else if LessEq(key(x), key(s[0])) {
      forall k | 0 <= k < |s| ensures LessEq(key(x), key(s[k])) {
        if k > 0 { Transitive(key(x), key(s[0]), key(s[k])); }
      }
    } else {
      var rest := Insert(x, s[1..], key);
      InsertSorts(x, s[1..], key);
      InsertPermutes(x, s[1..], key);
      Total(key(x), key(s[0]));
      forall k | 0 <= k < |rest| ensures LessEq(key(s[0]), key(rest[k])) {
        assert rest[k] in multiset(rest);
        if rest[k] != x { assert rest[k] in s[1..]; }
      }
    }
  }

  lemma {:induction false} SortSorts<T>(s: seq<T>, key: T -> string)
    ensures Sorted(Sort(s, key), key)
  {
    if s != [] {
      SortSorts(s[1..], key);
      InsertSorts(s[0], Sort(s[1..], key), key);
    }
  }

  lemma SameHead<T>(a: seq<T>, b: seq<T>, key: T -> string)
    requires Sorted(a, key) && Sorted(b, key) && Unique(a, key) && multiset(a) == multiset(b) && a != []
    ensures b != [] && a[0] == b[0]
  {
    assert |multiset(a)| == |a| && |multiset(b)| == |b|;
    assert a[0] in multiset(b) && b[0] in multiset(a);
    var i :| 0 <= i < |b| && b[i] == a[0];
    var k :| 0 <= k < |a| && a[k] == b[0];
    if i > 0 && k > 0 {
      Antisymmetric(key(a[0]), key(a[k]));
    }
  }

  lemma SameTail<T>(x: T, a: seq<T>, b: seq<T>)
    requires multiset([x] + a) == multiset([x] + b)
    ensures multiset(a) == multiset(b)
  {
    assert multiset(a) == multiset([x] + a) - multiset{x};
    assert multiset(b) == multiset([x] + b) - multiset{x};
  }

  /** Two sorted arrangements of the same elements agree when no two of them share a key. */
  lemma {:induction false} SortedIsCanonical<T>(a: seq<T>, b: seq<T>, key: T -> string)
    requires Sorted(a, key) && Sorted(b, key) && Unique(a, key) && multiset(a) == multiset(b)
    ensures a == b
  {
    if a == [] {
      assert |multiset(b)| == |b|;
    } else {
      SameHead(a, b, key);
      assert a == [a[0]] + a[1..] && b == [a[0]] + b[1..];
      SameTail(a[0], a[1..], b[1..]);
      SortedIsCanonical(a[1..], b[1..], key);
    }
  }

  lemma UniquePermutes<T>(a: seq<T>, b: seq<T>, key: T -> string)
    requires Unique(a, key) && multiset(a) == multiset(b)
    ensures Unique(b, key)
  {
    forall i, k | 0 <= i < k < |b| ensures key(b[i]) != key(b[k]) {
      if key(b[i]) == key(b[k]) {
        assert b[i] in multiset(a) && b[k] in multiset(a);
        var m :| 0 <= m < |a| && a[m] == b[i];
        var n :| 0 <= n < |a| && a[n] == b[k];
        assert m == n;
        OnceOnly(a, m, key);
        TwiceInside(b, i, k);
      }
    }
  }

  lemma OnceOnly<T>(a: seq<T>, m: nat, key: T -> string)
    requires Unique(a, key) && m < |a|
    ensures multiset(a)[a[m]] == 1
  {
    assert a == a[..m] + [a[m]] + a[m + 1..];
    assert a[m] !in a[..m] && a[m] !in a[m + 1..];
  }

  lemma TwiceInside<T>(b: seq<T>, i: nat, k: nat)
    requires i < k < |b| && b[i] == b[k]
    ensures multiset(b)[b[i]] >= 2
  {
    assert b == b[..i] + [b[i]] + b[i + 1..k] + [b[k]] + b[k + 1..];
  }

  /** Sorting does not depend on the order in which elements with unique keys are given. */
  lemma SortIsOrderFree<T>(a: seq<T>, b: seq<T>, key: T -> string)
    requires Unique(a, key)
    ensures Sort(a, key) == Sort(b, key) <==> multiset(a) == multiset(b)
  {
    SortPermutes(a, key);
    SortPermutes(b, key);
    if multiset(a) == multiset(b) {
      SortSorts(a, key);
      SortSorts(b, key);
      UniquePermutes(a, Sort(a, key), key);
      SortedIsCanonical(Sort(a, key), Sort(b, key), key);
    }
  }

  /** Without shared keys, holding the same elements is holding them equally often. */
  lemma UniqueSame<T>(a: seq<T>, b: seq<T>, key: T -> string)
    requires Unique(a, key) && Unique(b, key)
    ensures multiset(a) == multiset(b) <==> forall x :: x in a <==> x in b
  {
    if multiset(a) == multiset(b) {
      forall x ensures x in a <==> x in b {
        assert x in a <==> x in multiset(a);
        assert x in b <==> x in multiset(b);
      }
    } else if forall x :: x in a <==> x in b {
      forall x ensures multiset(a)[x] == multiset(b)[x] {
        if x in a {
          var m :| 0 <= m < |a| && a[m] == x;
          var n :| 0 <= n < |b| && b[n] == x;
          OnceOnly(a, m, key);
          OnceOnly(b, n, key);
        }
      }
    }
  }
}
