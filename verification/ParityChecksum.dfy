/** The order-free checksum of a table. The digest is a function of its input, so the input stands for
    the checksum here; equal inputs give equal digests. */
module ParityChecksum {
  import opened Basics
  import opened KeySort
  import opened Parity

  // ---- The digest's input ----

  function Digit(d: nat): char
    requires d < 10
  {
    "0123456789"[d]
  }

  function Decimal(n: nat): string {
    if n < 10 then [Digit(n)] else Decimal(n / 10) + [Digit(n % 10)]
  }

  /** A text preceded by its length and closed by a line end. */
  function Framed(text: string): string { Decimal(|text|) + ":" + (text + "\n") }

  function Line(row: Row): string {
    Framed(row.key) + (row.kind + "\n" + (row.state + "\n" + Framed(row.contentHash)))
  }

  function Encode(rows: seq<Row>): string {
    if rows == [] then "" else Line(rows[0]) + Encode(rows[1..])
  }

  /** The rows sorted by key, line by line; no checksum for an empty table. */
  function Checksum(rows: seq<Row>): Option<string> {
    if rows == [] then None else Some(Encode(Sort(rows, KeyOf)))
  }

  lemma OneLine(digest: string, rows: seq<Row>, i: nat)
    requires i < |rows|
    ensures (digest + Line(rows[i])) + Encode(rows[i + 1..]) == digest + Encode(rows[i..])
  {
    assert rows[i..][1..] == rows[i + 1..];
  }

  /** Feeds the digest one sorted row after another. */
  method ProjectionChecksum(rows: seq<Row>) returns (checksum: Option<string>)
    ensures checksum == Checksum(rows)
  {
    if rows == [] { return None; }
    var sorted := Sort(rows, KeyOf);
    var digest := "";
    for i := 0 to |sorted|
      invariant digest + Encode(sorted[i..]) == Encode(sorted)
    {
      OneLine(digest, sorted, i);
      digest := digest + Line(sorted[i]);
    }
    assert sorted[|sorted|..] == [] && digest + "" == digest;
    return Some(digest);
  }

  // ---- The input can be read back ----

  lemma SplitAt(c: char, a: string, b: string, x: string, y: string)
    requires c !in a && c !in b && a + [c] + x == b + [c] + y
    ensures a == b && x == y
  {
    var left, right := a + [c] + x, b + [c] + y;
    assert left[|a|] == c && right[|b|] == c;
    forall i | 0 <= i < |a| ensures left[i] == a[i] && left[i] != c {}
    forall i | 0 <= i < |b| ensures right[i] == b[i] && right[i] != c {}
    assert |a| == |b|;
    assert a == left[..|a|] && b == right[..|b|];
    assert x == left[|a| + 1..] && y == right[|b| + 1..];
  }

  lemma {:induction false} DecimalDigits(n: nat)
    ensures |Decimal(n)| > 0 && ':' !in Decimal(n)
  {
    if n >= 10 { DecimalDigits(n / 10); }
  }

  lemma DigitInjective(a: nat, b: nat)
    requires a < 10 && b < 10 && Digit(a) == Digit(b)
    ensures a == b
  {}

  lemma {:induction false} DecimalInjective(a: nat, b: nat)
    requires Decimal(a) == Decimal(b)
    ensures a == b
  {
    DecimalDigits(a / 10);
    DecimalDigits(b / 10);
    assert Decimal(a)[|Decimal(a)| - 1] == Digit(a % 10) && Decimal(b)[|Decimal(b)| - 1] == Digit(b % 10);
    DigitInjective(a % 10, b % 10);
    if a >= 10 && b >= 10 {
      assert Decimal(a / 10) == Decimal(a)[..|Decimal(a)| - 1];
      assert Decimal(b / 10) == Decimal(b)[..|Decimal(b)| - 1];
      DecimalInjective(a / 10, b / 10);
    }
  }

  lemma FramedSplits(a: string, b: string, x: string, y: string)
    requires Framed(a) + x == Framed(b) + y
    ensures a == b && x == y
  {
    DecimalDigits(|a|);
    DecimalDigits(|b|);
    var restA, restB := a + "\n" + x, b + "\n" + y;
    assert Framed(a) + x == Decimal(|a|) + [':'] + restA;
    assert Framed(b) + y == Decimal(|b|) + [':'] + restB;
    SplitAt(':', Decimal(|a|), Decimal(|b|), restA, restB);
    DecimalInjective(|a|, |b|);
    assert a == restA[..|a|] && b == restB[..|b|];
    assert x == restA[|a| + 1..] && y == restB[|b| + 1..];
  }

  /** Kinds and states are single words. */
  predicate Words(row: Row) { '\n' !in row.kind && '\n' !in row.state }

  ghost predicate AllWords(rows: seq<Row>) { forall i :: 0 <= i < |rows| ==> Words(rows[i]) }

  /** What the checksum sees of a row. */
  datatype Marks = Marks(key: string, kind: string, state: string, contentHash: string)

  function MarksOf(row: Row): Marks { Marks(row.key, row.kind, row.state, row.contentHash) }

  function AllMarks(rows: seq<Row>): seq<Marks> { seq(|rows|, i requires 0 <= i < |rows| => MarksOf(rows[i])) }

  function MarksKey(m: Marks): string { m.key }

  lemma LineSplits(a: Row, b: Row, x: string, y: string)
    requires Words(a) && Words(b) && Line(a) + x == Line(b) + y
    ensures MarksOf(a) == MarksOf(b) && x == y
  {
    var tailA, tailB := Framed(a.contentHash) + x, Framed(b.contentHash) + y;
    var midA, midB := a.state + ['\n'] + tailA, b.state + ['\n'] + tailB;
    var kindA, kindB := a.kind + ['\n'] + midA, b.kind + ['\n'] + midB;
    assert Line(a) + x == Framed(a.key) + kindA;
    assert Line(b) + y == Framed(b.key) + kindB;
    FramedSplits(a.key, b.key, kindA, kindB);
    SplitAt('\n', a.kind, b.kind, midA, midB);
    SplitAt('\n', a.state, b.state, tailA, tailB);
    FramedSplits(a.contentHash, b.contentHash, x, y);
  }

  /** The input of a table determines, row by row, the key, kind, state and content hash. */
  lemma {:induction false} EncodeExactly(a: seq<Row>, b: seq<Row>)
    requires AllWords(a) && AllWords(b)
    ensures Encode(a) == Encode(b) <==> AllMarks(a) == AllMarks(b)
  {
    if a != [] { DecimalDigits(|a[0].key|); }
    if b != [] { DecimalDigits(|b[0].key|); }
    if a != [] && b != [] {
      EncodeExactly(a[1..], b[1..]);
      assert Words(a[0]) && Words(b[0]);
      assert AllMarks(a) == [MarksOf(a[0])] + AllMarks(a[1..]) && AllMarks(b) == [MarksOf(b[0])] + AllMarks(b[1..]);
      assert AllMarks(a[1..]) == AllMarks(a)[1..] && AllMarks(b[1..]) == AllMarks(b)[1..];
      if Encode(a) == Encode(b) {
        LineSplits(a[0], b[0], Encode(a[1..]), Encode(b[1..]));
      }
    }
  }

  // ---- Sorting and marks ----

  lemma {:induction false} InsertMarks(x: Row, s: seq<Row>)
    ensures AllMarks(Insert(x, s, KeyOf)) == Insert(MarksOf(x), AllMarks(s), MarksKey)
  {
    if s == [] || LessEq(KeyOf(x), KeyOf(s[0])) {
      assert AllMarks([x] + s) == [MarksOf(x)] + AllMarks(s);
    } else {
      InsertMarks(x, s[1..]);
      assert AllMarks(s)[1..] == AllMarks(s[1..]);
      assert AllMarks([s[0]] + Insert(x, s[1..], KeyOf)) == [MarksOf(s[0])] + AllMarks(Insert(x, s[1..], KeyOf));
    }
  }

  lemma {:induction false} SortMarks(s: seq<Row>)
    ensures AllMarks(Sort(s, KeyOf)) == Sort(AllMarks(s), MarksKey)
  {
    if s != [] {
      SortMarks(s[1..]);
      InsertMarks(s[0], Sort(s[1..], KeyOf));
      assert AllMarks(s)[1..] == AllMarks(s[1..]);
    }
  }

  lemma SortKeepsWords(s: seq<Row>)
    requires AllWords(s)
    ensures AllWords(Sort(s, KeyOf)) && |Sort(s, KeyOf)| == |s|
  {
    var t := Sort(s, KeyOf);
    SortPermutes(s, KeyOf);
    assert |multiset(t)| == |t| && |multiset(s)| == |s|;
    forall i | 0 <= i < |t| ensures Words(t[i]) {
      assert t[i] in multiset(s);
      assert t[i] in s;
    }
  }

  lemma MarksUnique(rows: seq<Row>)
    requires Unique(rows, KeyOf)
    ensures Unique(AllMarks(rows), MarksKey)
  {
    forall i, k | 0 <= i < k < |rows| ensures MarksKey(AllMarks(rows)[i]) != MarksKey(AllMarks(rows)[k]) {
      assert KeyOf(rows[i]) != KeyOf(rows[k]);
    }
  }

  // ---- What the checksum means ----

  /** For tables with unique keys the checksums are equal exactly when the tables hold the same rows
      equally often, up to key, kind, state and content hash. In particular row order is irrelevant. */
  lemma ChecksumIsExact(a: seq<Row>, b: seq<Row>)
    requires Unique(a, KeyOf) && Unique(b, KeyOf) && AllWords(a) && AllWords(b)
    ensures Checksum(a) == Checksum(b) <==> multiset(AllMarks(a)) == multiset(AllMarks(b))
  {
    SortKeepsWords(a);
    SortKeepsWords(b);
    EncodeExactly(Sort(a, KeyOf), Sort(b, KeyOf));
    SortMarks(a);
    SortMarks(b);
    MarksUnique(a);
    SortIsOrderFree(AllMarks(a), AllMarks(b), MarksKey);
    assert |multiset(AllMarks(a))| == |a| && |multiset(AllMarks(b))| == |b|;
  }

  lemma MarksOneWay(a: seq<Row>, b: seq<Row>)
    requires forall x :: x in ShowAll(a) ==> x in ShowAll(b)
    ensures forall x :: x in AllMarks(a) ==> x in AllMarks(b)
  {
    forall x | x in AllMarks(a) ensures x in AllMarks(b) {
      var i :| 0 <= i < |a| && AllMarks(a)[i] == x;
      assert ShowAll(a)[i] == Show(a[i]) && Show(a[i]) in ShowAll(a);
      assert Show(a[i]) in ShowAll(b);
      var k :| 0 <= k < |b| && ShowAll(b)[k] == Show(a[i]);
      assert AllMarks(b)[k] == x;
    }
  }

  /** A parity match implies equal checksums. */
  lemma MatchHasEqualChecksums(fields: set<Field>, source: seq<Row>, canonical: seq<Row>)
    requires Exactly(fields, source, canonical) && StatusOf(fields) == Match
    requires WellFormed(source) && WellFormed(canonical) && AllWords(source) && AllWords(canonical)
    ensures Checksum(source) == Checksum(canonical)
  {
    MatchIsMultisetEquality(fields, source, canonical);
    ShownUnique(source);
    ShownUnique(canonical);
    UniqueSame(ShowAll(source), ShowAll(canonical), ShownKey);
    MarksOneWay(source, canonical);
    MarksOneWay(canonical, source);
    MarksUnique(source);
    MarksUnique(canonical);
    UniqueSame(AllMarks(source), AllMarks(canonical), MarksKey);
    ChecksumIsExact(source, canonical);
  }
}
