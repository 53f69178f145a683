/** Alert history rows, their order, and the rows of one rule. */
module AlertRows {
  type RuleId = nat

  datatype Severity = Warning | Critical

  datatype Kind = Fired | Resolved | Suppressed

  /** One durable row. Times are in 100-nanosecond ticks. */
  datatype Row = Row(id: int, rule: RuleId, severity: Severity, kind: Kind, at: int)

  const Second: int := 10_000_000
  const Hour: int := 36_000_000_000

  /** A suppressed firing is still a firing. */
  predicate IsFiring(x: Row) {
    x.kind == Fired || x.kind == Suppressed
  }

  predicate Before(a: Row, b: Row) {
    a.at < b.at || (a.at == b.at && a.id <= b.id)
  }

  predicate Sorted(rows: seq<Row>) {
    forall i, j :: 0 <= i < j < |rows| ==> Before(rows[i], rows[j])
  }

  /** Rows that share their time and id are the same row. */
  predicate Told(rows: seq<Row>) {
    forall x, y | x in rows && y in rows :: x.at == y.at && x.id == y.id ==> x == y
  }

  function Insert(x: Row, rows: seq<Row>): seq<Row> {
    if rows == [] || Before(x, rows[0]) then [x] + rows else [rows[0]] + Insert(x, rows[1..])
  }

  /** By time, then by id. */
  function Sort(rows: seq<Row>): seq<Row> {
    if rows == [] then [] else Insert(rows[0], Sort(rows[1..]))
  }

  lemma {:induction false} InsertSorts(x: Row, rows: seq<Row>)
    requires Sorted(rows)
    ensures Sorted(Insert(x, rows)) && multiset(Insert(x, rows)) == multiset{x} + multiset(rows)
    decreases |rows|
  {
    if rows == [] || Before(x, rows[0]) {
    } else {
      InsertSorts(x, rows[1..]);
      var rest := Insert(x, rows[1..]);
      assert rows == [rows[0]] + rows[1..];
      FirstBeforeRest(x, rows, rest);
      SortedWithFirst(rows[0], rest);
    }
  }

  lemma FirstBeforeRest(x: Row, rows: seq<Row>, rest: seq<Row>)
    requires rows != [] && Sorted(rows) && !Before(x, rows[0]) && multiset(rest) == multiset{x} + multiset(rows[1..])
    ensures forall i :: 0 <= i < |rest| ==> Before(rows[0], rest[i])
  {
    forall i | 0 <= i < |rest| ensures Before(rows[0], rest[i]) {
      assert rest[i] in multiset(rest);
      assert rest[i] == x || rest[i] in rows[1..];
    }
  }

  lemma SortedWithFirst(x: Row, rest: seq<Row>)
    requires Sorted(rest) && forall i :: 0 <= i < |rest| ==> Before(x, rest[i])
    ensures Sorted([x] + rest)
  {
  }

  lemma {:induction false} SortSorts(rows: seq<Row>)
    ensures Sorted(Sort(rows)) && multiset(Sort(rows)) == multiset(rows)
    ensures forall i, j :: 0 <= i < j < |Sort(rows)| ==>
      var a, b := Sort(rows)[i], Sort(rows)[j]; a.at < b.at || (a.at == b.at && a.id <= b.id)
    decreases |rows|
  {
    if rows != [] {
      SortSorts(rows[1..]);
      InsertSorts(rows[0], Sort(rows[1..]));
      assert rows == [rows[0]] + rows[1..];
    }
  }

  lemma SameFirst(a: seq<Row>, b: seq<Row>)
    requires Sorted(a) && Sorted(b) && a != [] && b != [] && multiset(a) == multiset(b) && Told(a)
    ensures a[0] == b[0]
  {
    assert a[0] in multiset(b) && b[0] in multiset(a);
    var i :| 0 <= i < |b| && b[i] == a[0];
    var j :| 0 <= j < |a| && a[j] == b[0];
    assert a[0].at == b[0].at && a[0].id == b[0].id;
  }

  lemma SameRest(a: seq<Row>, b: seq<Row>)
    requires a != [] && b != [] && multiset(a) == multiset(b) && a[0] == b[0]
    ensures multiset(a[1..]) == multiset(b[1..])
  {
    assert a == [a[0]] + a[1..] && b == [b[0]] + b[1..];
    assert multiset(a[1..]) == multiset(a) - multiset{a[0]};
  }

  /** Two sorted arrangements of the same rows are the same. */
  lemma {:induction false} SortedUnique(a: seq<Row>, b: seq<Row>)
    requires Sorted(a) && Sorted(b) && multiset(a) == multiset(b) && Told(a)
    ensures a == b
    decreases |a|
  {
    assert |a| == |multiset(a)| == |multiset(b)| == |b|;
    if a != [] {
      SameFirst(a, b);
      SameRest(a, b);
      assert forall x :: x in a[1..] ==> x in a;
      SortedUnique(a[1..], b[1..]);
      assert a == [a[0]] + a[1..] && b == [b[0]] + b[1..];
    }
  }

  /** The rows of one rule, in the order given. */
  function Of(rows: seq<Row>, rule: RuleId): seq<Row>
    decreases |rows|
  {
    if rows == [] then []
    else
      var front, x := rows[..|rows| - 1], rows[|rows| - 1];
      if x.rule == rule then Of(front, rule) + [x] else Of(front, rule)
  }

  lemma {:induction false} OfConcat(a: seq<Row>, b: seq<Row>, rule: RuleId)
    ensures Of(a + b, rule) == Of(a, rule) + Of(b, rule)
    decreases |b|
  {
    if b == [] {
      assert a + b == a;
    } else {
      assert (a + b)[..|a + b| - 1] == a + b[..|b| - 1];
      OfConcat(a, b[..|b| - 1], rule);
    }
  }

  lemma {:induction false} OfMembers(rows: seq<Row>, rule: RuleId)
    ensures forall x :: x in Of(rows, rule) <==> x in rows && x.rule == rule
    decreases |rows|
  {
    if rows != [] {
      OfMembers(rows[..|rows| - 1], rule);
      assert rows == rows[..|rows| - 1] + [rows[|rows| - 1]];
    }
  }

  lemma {:induction false} OfCounts(rows: seq<Row>, rule: RuleId, x: Row)
    ensures multiset(Of(rows, rule))[x] == if x.rule == rule then multiset(rows)[x] else 0
    decreases |rows|
  {
    if rows != [] {
      OfCounts(rows[..|rows| - 1], rule, x);
      assert rows == rows[..|rows| - 1] + [rows[|rows| - 1]];
    }
  }

  lemma {:induction false} OfSorted(rows: seq<Row>, rule: RuleId)
    requires Sorted(rows)
    ensures Sorted(Of(rows, rule))
    decreases |rows|
  {
    if rows != [] {
      var front := rows[..|rows| - 1];
      OfSorted(front, rule);
      OfMembers(front, rule);
      forall x | x in Of(front, rule) ensures Before(x, rows[|rows| - 1]) {
        assert x in front;
      }
    }
  }

  /** Each rule's rows have strictly increasing times. */
  predicate Increasing(rows: seq<Row>) {
    forall i, j :: 0 <= i < j < |rows| ==> rows[i].at < rows[j].at
  }

  /** Sorting a history whose rows are in time order for each rule does not reorder any rule's rows. */
  lemma SortKeepsRule(rows: seq<Row>, rule: RuleId)
    requires Increasing(Of(rows, rule))
    ensures Of(Sort(rows), rule) == Of(rows, rule)
  {
    SortSorts(rows);
    OfSorted(Sort(rows), rule);
    var a, b := Of(rows, rule), Of(Sort(rows), rule);
    forall x ensures multiset(a)[x] == multiset(b)[x] {
      OfCounts(rows, rule, x);
      OfCounts(Sort(rows), rule, x);
    }
    assert multiset(a) == multiset(b);
    SortedUnique(a, b);
  }
}
