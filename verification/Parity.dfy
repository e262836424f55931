/** The parity check between the account-deletion source and its canonical projection. */
module Parity {
  import opened Basics
  import opened KeySort

  type Entry = (string, Option<string>)

  datatype Row = Row(key: string, kind: string, state: string, contentHash: string, payload: seq<Entry>)

  datatype Field = DuplicateKey | MissingRecord | KindField | StateField | ContentHash | PayloadField | RecordCount

  datatype Status = Match | Mismatch | Blocked

  function KeyOf(row: Row): string { row.key }

  function EntryKey(entry: Entry): string { entry.0 }

  // ---- Payloads ----

  /** Entries sorted by key on both sides, then compared one by one. */
  predicate PayloadEqual(left: seq<Entry>, right: seq<Entry>) {
    Sort(left, EntryKey) == Sort(right, EntryKey)
  }

  /** An object is the finite set of its entries, whose keys are unique. */
  function Entries(payload: seq<Entry>): set<Entry> { set e | e in payload }

  ghost predicate IsObject(payload: seq<Entry>) { Unique(payload, EntryKey) }

  /** The payload comparison is equality of the two objects, whatever their entry order. */
  lemma PayloadEqualityIsObjectEquality(left: seq<Entry>, right: seq<Entry>)
    requires IsObject(left) && IsObject(right)
    ensures PayloadEqual(left, right) <==> Entries(left) == Entries(right)
  {
    SortIsOrderFree(left, right, EntryKey);
    UniqueSame(left, right, EntryKey);
    if Entries(left) == Entries(right) {
      forall e ensures e in left <==> e in right {
        assert e in left <==> e in Entries(left);
        assert e in right <==> e in Entries(right);
      }
    }
  }

  // ---- The comparison ----

  function Keys(rows: seq<Row>): set<string> { set i | 0 <= i < |rows| :: rows[i].key }

  /** Building a map from the rows: of rows with one key the last one stays. */
  function Latest(rows: seq<Row>): (m: map<string, Row>)
    ensures m.Keys == Keys(rows)
    ensures forall k :: k in m ==> m[k] in rows && m[k].key == k
  {
    if rows == [] then map[]
    else
      var n := |rows| - 1;
      assert rows == rows[..n] + [rows[n]];
      KeysSnoc(rows[..n], rows[n]);
      Latest(rows[..n])[rows[n].key := rows[n]]
  }

  predicate Differs(f: Field, source: Row, canonical: Row) {
    match f
    case KindField => source.kind != canonical.kind
    case StateField => source.state != canonical.state
    case ContentHash => source.contentHash != canonical.contentHash
    case PayloadField => !PayloadEqual(source.payload, canonical.payload)
    case _ => false
  }

  /** Some key that both sides have differs in the field. */
  ghost predicate SomeDiffers(f: Field, source: map<string, Row>, canonical: map<string, Row>) {
    exists k :: k in source && k in canonical && Differs(f, source[k], canonical[k])
  }

  /** When a mismatch field is reported. */
  ghost predicate Reported(f: Field, source: seq<Row>, canonical: seq<Row>) {
    match f
    case DuplicateKey => !Unique(source, KeyOf) || !Unique(canonical, KeyOf)
    case MissingRecord => Keys(source) != Keys(canonical)
    case RecordCount => |Keys(source)| != |Keys(canonical)|
    case _ => SomeDiffers(f, Latest(source), Latest(canonical))
  }

  function StatusOf(fields: set<Field>): Status {
    if MissingRecord in fields || DuplicateKey in fields then Blocked
    else if fields == {} then Match
    else Mismatch
  }

  lemma KeysSnoc(front: seq<Row>, last: Row)
    ensures Keys(front + [last]) == Keys(front) + {last.key}
    ensures Unique(front + [last], KeyOf) <==> Unique(front, KeyOf) && last.key !in Keys(front)
  {
    var rows := front + [last];
    forall i | 0 <= i < |front| ensures rows[i] == front[i] {}
    forall k | k in Keys(front) + {last.key} ensures k in Keys(rows) {
      if k == last.key { assert rows[|front|] == last; }
    }
    if Unique(rows, KeyOf) {
      forall i, k | 0 <= i < k < |front| ensures KeyOf(front[i]) != KeyOf(front[k]) {
        assert KeyOf(rows[i]) != KeyOf(rows[k]);
      }
      forall i | 0 <= i < |front| ensures front[i].key != last.key {
        assert KeyOf(rows[i]) != KeyOf(rows[|front|]);
      }
    }
  }

  /** Keys are unique exactly when there are as many of them as rows. */
  lemma {:induction false} UniqueSize(rows: seq<Row>)
    ensures |Keys(rows)| <= |rows|
    ensures |Keys(rows)| == |rows| <==> Unique(rows, KeyOf)
  {
    if rows == [] {
      assert Keys(rows) == {};
    } else {
      var front, last := rows[..|rows| - 1], rows[|rows| - 1];
      UniqueSize(front);
      KeysSnoc(front, last);
      assert rows == front + [last];
    }
  }

  method Index(rows: seq<Row>) returns (byKey: map<string, Row>)
    ensures byKey == Latest(rows)
  {
    byKey := map[];
    for i := 0 to |rows|
      invariant byKey == Latest(rows[..i])
    {
      byKey := byKey[rows[i].key := rows[i]];
      assert rows[..i + 1][..i] == rows[..i];
    }
    assert rows[..|rows|] == rows;
  }

  /** The fields found by going over the keys of one side. */
  ghost predicate FoundShared(fields: set<Field>, source: map<string, Row>, canonical: map<string, Row>) {
    && (MissingRecord in fields <==> !(source.Keys <= canonical.Keys))
    && (forall f :: f != MissingRecord ==> (f in fields <==> SomeDiffers(f, source, canonical)))
  }

  method CompareRows(source: Row, canonical: Row) returns (fields: set<Field>)
    ensures forall f :: f in fields <==> Differs(f, source, canonical)
  {
    fields := {};
    if source.kind != canonical.kind { fields := fields + {KindField}; }
    if source.state != canonical.state { fields := fields + {StateField}; }
    if source.contentHash != canonical.contentHash { fields := fields + {ContentHash}; }
    if !PayloadEqual(source.payload, canonical.payload) { fields := fields + {PayloadField}; }
  }

  method CompareShared(source: map<string, Row>, canonical: map<string, Row>) returns (fields: set<Field>)
    ensures FoundShared(fields, source, canonical)
  {
    fields := {};
    var left := source.Keys;
    while left != {}
      invariant left <= source.Keys
      invariant FoundShared(fields, source - left, canonical)
      decreases |left|
    {
      var key :| key in left;
      ghost var seen := source - left;
      left := left - {key};
      var found: set<Field>;
      if key !in canonical {
        found := {MissingRecord};
      } else {
        found := CompareRows(source[key], canonical[key]);
      }
      OneMore(fields, found, seen, canonical, key, source[key]);
      fields := fields + found;
      assert source - left == seen[key := source[key]];
    }
    assert source - left == source;
  }

  lemma OneMore(before: set<Field>, found: set<Field>, seen: map<string, Row>, canonical: map<string, Row>,
                key: string, row: Row)
    requires FoundShared(before, seen, canonical) && key !in seen
    requires forall f ::
      f in found <==> if key in canonical then Differs(f, row, canonical[key]) else f == MissingRecord
    ensures FoundShared(before + found, seen[key := row], canonical)
  {
    var more := seen[key := row];
    assert more.Keys == seen.Keys + {key};
    forall f | f != MissingRecord ensures f in before + found <==> SomeDiffers(f, more, canonical) {
      if SomeDiffers(f, seen, canonical) {
        var k :| k in seen && k in canonical && Differs(f, seen[k], canonical[k]);
        assert Differs(f, more[k], canonical[k]);
      }
      if key in canonical && Differs(f, row, canonical[key]) {
        assert Differs(f, more[key], canonical[key]);
      }
    }
  }

  /** When a field is reported, said of the two maps and the numbers of rows behind them. */
  ghost predicate Expected(f: Field, source: map<string, Row>, canonical: map<string, Row>,
                           sources: nat, canonicals: nat) {
    match f
    case DuplicateKey => |source| != sources || |canonical| != canonicals
    case MissingRecord => source.Keys != canonical.Keys
    case RecordCount => |source| != |canonical|
    case _ => SomeDiffers(f, source, canonical)
  }

  method AddKeyFields(shared: set<Field>, duplicate: bool, missing: bool, counts: bool) returns (fields: set<Field>)
    ensures forall f :: f in fields <==>
      f in shared || (f.DuplicateKey? && duplicate) || (f.MissingRecord? && missing) || (f.RecordCount? && counts)
  {
    fields := shared;
    if duplicate { fields := fields + {DuplicateKey}; }
    if missing { fields := fields + {MissingRecord}; }
    if counts { fields := fields + {RecordCount}; }
  }

  lemma FoundIsExpected(f: Field, shared: set<Field>, source: map<string, Row>, canonical: map<string, Row>,
                        sources: nat, canonicals: nat)
    requires FoundShared(shared, source, canonical)
    ensures Expected(f, source, canonical, sources, canonicals) <==>
      || f in shared || (f.DuplicateKey? && (|source| != sources || |canonical| != canonicals))
      || (f.MissingRecord? && !(canonical.Keys <= source.Keys)) || (f.RecordCount? && |source| != |canonical|)
  {
    match f
    case DuplicateKey => assert f !in shared;
    case RecordCount => assert f !in shared;
    case MissingRecord =>
    case _ =>
  }

  method CompareMaps(source: map<string, Row>, canonical: map<string, Row>, sources: nat, canonicals: nat)
    returns (fields: set<Field>)
    ensures forall f :: f in fields <==> Expected(f, source, canonical, sources, canonicals)
  {
    var shared := CompareShared(source, canonical);
    fields := AddKeyFields(shared, |source| != sources || |canonical| != canonicals,
                           !(canonical.Keys <= source.Keys), |source| != |canonical|);
    forall f ensures f in fields <==> Expected(f, source, canonical, sources, canonicals) {
      FoundIsExpected(f, shared, source, canonical, sources, canonicals);
    }
  }

  lemma ExpectedIsReported(f: Field, source: seq<Row>, canonical: seq<Row>)
    ensures Expected(f, Latest(source), Latest(canonical), |source|, |canonical|) <==> Reported(f, source, canonical)
  {
    UniqueSize(source);
    UniqueSize(canonical);
    assert |Latest(source)| == |Latest(source).Keys| && |Latest(canonical)| == |Latest(canonical).Keys|;
  }

  /** The mismatch fields are reported exactly, and the status follows from them. */
  method Compare(source: seq<Row>, canonical: seq<Row>) returns (fields: set<Field>, status: Status)
    ensures forall f :: f in fields <==> Reported(f, source, canonical)
    ensures status == StatusOf(fields)
  {
    var sourceByKey := Index(source);
    var canonicalByKey := Index(canonical);
    fields := CompareMaps(sourceByKey, canonicalByKey, |source|, |canonical|);
    forall f ensures f in fields <==> Reported(f, source, canonical) {
      ExpectedIsReported(f, source, canonical);
    }
    status := StatusOf(fields);
  }

  // ---- What the statuses mean ----

  /** What a row shows of itself: the payload as an object, and no target hash. */
  datatype Shown = Shown(key: string, kind: string, state: string, contentHash: string, payload: set<Entry>)

  function Show(row: Row): Shown { Shown(row.key, row.kind, row.state, row.contentHash, Entries(row.payload)) }

  function ShowAll(rows: seq<Row>): seq<Shown> { seq(|rows|, i requires 0 <= i < |rows| => Show(rows[i])) }

  function ShownKey(s: Shown): string { s.key }

  ghost predicate WellFormed(rows: seq<Row>) { forall i :: 0 <= i < |rows| ==> IsObject(rows[i].payload) }

  lemma LatestOfUnique(rows: seq<Row>, i: nat)
    requires Unique(rows, KeyOf) && i < |rows|
    ensures rows[i].key in Latest(rows) && Latest(rows)[rows[i].key] == rows[i]
  {
    assert rows[i].key in Keys(rows);
    var latest := Latest(rows)[rows[i].key];
    var m :| 0 <= m < |rows| && rows[m] == latest;
    assert KeyOf(rows[m]) == KeyOf(rows[i]);
  }

  lemma ShownUnique(rows: seq<Row>)
    requires Unique(rows, KeyOf)
    ensures Unique(ShowAll(rows), ShownKey)
  {
    forall i, k | 0 <= i < k < |rows| ensures ShownKey(ShowAll(rows)[i]) != ShownKey(ShowAll(rows)[k]) {
      assert KeyOf(rows[i]) != KeyOf(rows[k]);
    }
  }

  predicate SameFields(a: Row, b: Row) {
    a.kind == b.kind && a.state == b.state && a.contentHash == b.contentHash && PayloadEqual(a.payload, b.payload)
  }

  /** Rows of a key that both sides have differ in no compared field. */
  ghost predicate Agree(source: map<string, Row>, canonical: map<string, Row>) {
    forall k :: k in source && k in canonical ==> SameFields(source[k], canonical[k])
  }

  /** Two rows of one key show the same exactly when they differ in no compared field. */
  lemma SameShown(a: Row, b: Row)
    requires a.key == b.key && IsObject(a.payload) && IsObject(b.payload)
    ensures Show(a) == Show(b) <==> SameFields(a, b)
  {
    PayloadEqualityIsObjectEquality(a.payload, b.payload);
  }

  /** One side of a match: every row shown by `a` is shown by `b`. */
  lemma ShownInOther(a: seq<Row>, b: seq<Row>, i: nat)
    requires Unique(a, KeyOf) && WellFormed(a) && WellFormed(b) && i < |a| && Keys(a) <= Keys(b)
    requires SameFields(a[i], Latest(b)[a[i].key])
    ensures Show(a[i]) in ShowAll(b)
  {
    assert a[i].key in Keys(a);
    var other := Latest(b)[a[i].key];
    var m :| 0 <= m < |b| && b[m] == other;
    SameShown(a[i], b[m]);
    assert ShowAll(b)[m] == Show(b[m]);
  }

  /** The converse: if `b` shows what `a` shows, it has the key, and the latest rows agree. */
  lemma OtherAgrees(a: seq<Row>, b: seq<Row>, k: string)
    requires Unique(a, KeyOf) && Unique(b, KeyOf) && WellFormed(a) && WellFormed(b) && k in Latest(a)
    requires forall x :: x in ShowAll(a) ==> x in ShowAll(b)
    ensures k in Latest(b) && SameFields(Latest(a)[k], Latest(b)[k])
  {
    var i :| 0 <= i < |a| && a[i] == Latest(a)[k];
    assert ShowAll(a)[i] == Show(a[i]);
    assert Show(a[i]) in ShowAll(b);
    var m :| 0 <= m < |b| && ShowAll(b)[m] == Show(a[i]);
    LatestOfUnique(b, m);
    SameShown(a[i], b[m]);
  }

  ghost predicate Exactly(fields: set<Field>, source: seq<Row>, canonical: seq<Row>) {
    forall f :: f in fields <==> Reported(f, source, canonical)
  }

  lemma NobodyDiffers(source: map<string, Row>, canonical: map<string, Row>)
    ensures Agree(source, canonical) <==>
      && !SomeDiffers(KindField, source, canonical) && !SomeDiffers(StateField, source, canonical)
      && !SomeDiffers(ContentHash, source, canonical) && !SomeDiffers(PayloadField, source, canonical)
  {
    forall k | k in source && k in canonical
      ensures SameFields(source[k], canonical[k]) <==>
        && !Differs(KindField, source[k], canonical[k]) && !Differs(StateField, source[k], canonical[k])
        && !Differs(ContentHash, source[k], canonical[k]) && !Differs(PayloadField, source[k], canonical[k])
    {}
  }

  lemma NothingReported(fields: set<Field>, source: seq<Row>, canonical: seq<Row>)
    requires Exactly(fields, source, canonical)
    ensures fields == {} <==>
      && Unique(source, KeyOf) && Unique(canonical, KeyOf) && Keys(source) == Keys(canonical)
      && Agree(Latest(source), Latest(canonical))
  {
    NobodyDiffers(Latest(source), Latest(canonical));
    if fields == {} {
      assert forall f :: !Reported(f, source, canonical);
      assert !Reported(DuplicateKey, source, canonical) && !Reported(MissingRecord, source, canonical);
      assert !Reported(KindField, source, canonical) && !Reported(StateField, source, canonical);
      assert !Reported(ContentHash, source, canonical) && !Reported(PayloadField, source, canonical);
    } else {
      var f :| f in fields;
      assert Reported(f, source, canonical);
    }
  }

  lemma ShownOneWay(a: seq<Row>, b: seq<Row>)
    requires Unique(a, KeyOf) && WellFormed(a) && WellFormed(b) && Keys(a) <= Keys(b)
    requires Agree(Latest(a), Latest(b)) || Agree(Latest(b), Latest(a))
    ensures forall x :: x in ShowAll(a) ==> x in ShowAll(b)
  {
    forall x | x in ShowAll(a) ensures x in ShowAll(b) {
      var i :| 0 <= i < |a| && ShowAll(a)[i] == x;
      LatestOfUnique(a, i);
      assert a[i].key in Keys(a);
      assert SameFields(a[i], Latest(b)[a[i].key]);
      ShownInOther(a, b, i);
    }
  }

  lemma AgreeOneWay(a: seq<Row>, b: seq<Row>)
    requires Unique(a, KeyOf) && Unique(b, KeyOf) && WellFormed(a) && WellFormed(b)
    requires forall x :: x in ShowAll(a) ==> x in ShowAll(b)
    ensures Keys(a) <= Keys(b) && Agree(Latest(a), Latest(b))
  {
    forall k | k in Keys(a) ensures k in Keys(b) && SameFields(Latest(a)[k], Latest(b)[k]) {
      OtherAgrees(a, b, k);
    }
  }

  /** The status is `Match` exactly when keys are unique on both sides and the two tables hold the same
      rows equally often, up to key, kind, state, content hash and payload object. */
  lemma MatchIsMultisetEquality(fields: set<Field>, source: seq<Row>, canonical: seq<Row>)
    requires Exactly(fields, source, canonical) && WellFormed(source) && WellFormed(canonical)
    ensures StatusOf(fields) == Match <==>
      && Unique(source, KeyOf) && Unique(canonical, KeyOf)
      && multiset(ShowAll(source)) == multiset(ShowAll(canonical))
  {
    NothingReported(fields, source, canonical);
    if Unique(source, KeyOf) && Unique(canonical, KeyOf) {
      ShownUnique(source);
      ShownUnique(canonical);
      UniqueSame(ShowAll(source), ShowAll(canonical), ShownKey);
      if fields == {} {
        ShownOneWay(source, canonical);
        ShownOneWay(canonical, source);
      } else if multiset(ShowAll(source)) == multiset(ShowAll(canonical)) {
        AgreeOneWay(source, canonical);
        AgreeOneWay(canonical, source);
      }
    }
  }

  /** The status is `Blocked` exactly when a key is doubled or missing; different numbers of distinct keys
      always block, since then some key is missing. */
  lemma BlockedExactly(fields: set<Field>, source: seq<Row>, canonical: seq<Row>)
    requires Exactly(fields, source, canonical)
    ensures StatusOf(fields) == Blocked <==>
      !Unique(source, KeyOf) || !Unique(canonical, KeyOf) || Keys(source) != Keys(canonical)
    ensures |Keys(source)| != |Keys(canonical)| ==> StatusOf(fields) == Blocked
  {
    assert DuplicateKey in fields <==> Reported(DuplicateKey, source, canonical);
    assert MissingRecord in fields <==> Reported(MissingRecord, source, canonical);
  }
}
