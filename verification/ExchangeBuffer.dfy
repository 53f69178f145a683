/** The last fifty exchanges, by id: a list in recording order and an index into it. */
module ExchangeBuffer {
  import opened Wrappers

  /** Ids are only ever compared. */
  type Id = nat

  datatype Exchange = Exchange(id: Id, body: string)

  const Capacity: nat := 50

  function Ids(s: seq<Exchange>): (r: set<Id>)
    ensures forall i :: 0 <= i < |s| ==> s[i].id in r
    decreases |s|
  {
    if s == [] then {} else {s[0].id} + Ids(s[1..])
  }

  /** The log without records that a later record of the same id replaces. */
  function Latest(log: seq<Exchange>): seq<Exchange>
    decreases |log|
  {
    if log == [] then []
    else if log[0].id in Ids(log[1..]) then Latest(log[1..])
    else [log[0]] + Latest(log[1..])
  }

  function Tail(s: seq<Exchange>): seq<Exchange> {
    if |s| > Capacity then s[|s| - Capacity..] else s
  }

  function Kept(log: seq<Exchange>): seq<Exchange> { Tail(Latest(log)) }

  function Without(s: seq<Exchange>, id: Id): seq<Exchange>
    decreases |s|
  {
    if s == [] then []
    else if s[0].id == id then Without(s[1..], id)
    else [s[0]] + Without(s[1..], id)
  }

  predicate Distinct(s: seq<Exchange>) {
    forall i, j :: 0 <= i < j < |s| ==> s[i].id != s[j].id
  }

  lemma {:induction false} IdsConcat(a: seq<Exchange>, b: seq<Exchange>)
    ensures Ids(a + b) == Ids(a) + Ids(b)
    decreases |a|
  {
    if a == [] {
      assert a + b == b;
    } else {
      assert (a + b)[1..] == a[1..] + b;
      IdsConcat(a[1..], b);
    }
  }

  // ---- The spec, without the list ----

  /** Record k is the last one of its id, and fewer than fifty different ids have been recorded since. */
  predicate Recent(log: seq<Exchange>, k: nat)
    requires k < |log|
  {
    log[k].id !in Ids(log[k + 1..]) && |Ids(log[k + 1..])| < 50
  }

  lemma {:induction false} LatestCounts(log: seq<Exchange>)
    ensures |Latest(log)| == |Ids(log)| && Ids(Latest(log)) == Ids(log)
    decreases |log|
  {
    if log != [] {
      LatestCounts(log[1..]);
      if log[0].id !in Ids(log[1..]) {
        assert ([log[0]] + Latest(log[1..]))[1..] == Latest(log[1..]);
      }
    }
  }

  lemma {:induction false} LatestDistinct(log: seq<Exchange>)
    ensures Distinct(Latest(log))
    decreases |log|
  {
    if log != [] {
      LatestDistinct(log[1..]);
      LatestCounts(log[1..]);
    }
  }

  lemma {:induction false} LatestEndsWith(log: seq<Exchange>, k: nat)
    requires k <= |log|
    ensures |Latest(log[k..])| <= |Latest(log)| && Latest(log)[|Latest(log)| - |Latest(log[k..])|..] == Latest(log[k..])
    decreases k
  {
    if k > 0 {
      assert log[1..][k - 1..] == log[k..];
      LatestEndsWith(log[1..], k - 1);
      var rest, tail := Latest(log[1..]), Latest(log[k..]);
      if log[0].id !in Ids(log[1..]) {
        assert Latest(log) == [log[0]] + rest;
        assert ([log[0]] + rest)[1 + |rest| - |tail|..] == rest[|rest| - |tail|..];
      }
    } else {
      assert log[0..] == log;
    }
  }

  /** Where the last record of an id stands: in front of one record for each id recorded since. */
  lemma LatestPosition(log: seq<Exchange>, k: nat)
    requires k < |log| && log[k].id !in Ids(log[k + 1..])
    ensures |Ids(log[k + 1..])| < |Latest(log)| && Latest(log)[|Latest(log)| - 1 - |Ids(log[k + 1..])|] == log[k]
  {
    LatestEndsWith(log, k);
    LatestCounts(log[k + 1..]);
    assert log[k..][1..] == log[k + 1..];
    assert Latest(log[k..]) == [log[k]] + Latest(log[k + 1..]);
  }

  lemma {:induction false} LastRecord(log: seq<Exchange>, id: Id) returns (k: nat)
    requires id in Ids(log)
    ensures k < |log| && log[k].id == id && id !in Ids(log[k + 1..])
    decreases |log|
  {
    if id in Ids(log[1..]) {
      k := LastRecord(log[1..], id);
      assert log[1..][k + 1..] == log[k + 2..];
      k := k + 1;
    } else {
      k := 0;
    }
  }

  lemma RecentIsKept(log: seq<Exchange>, k: nat)
    requires k < |log| && Recent(log, k)
    ensures log[k] in Kept(log)
  {
    LatestPosition(log, k);
    var latest, kept := Latest(log), Kept(log);
    var p := |latest| - 1 - |Ids(log[k + 1..])|;
    assert kept[p - (|latest| - |kept|)] == latest[p];
  }

  lemma KeptIsRecent(log: seq<Exchange>, q: nat) returns (k: nat)
    requires q < |Kept(log)|
    ensures k < |log| && log[k] == Kept(log)[q] && Recent(log, k)
  {
    var latest := Latest(log);
    var p := q + (|latest| - |Kept(log)|);
    assert Kept(log)[q] == latest[p];
    LatestCounts(log);
    LatestDistinct(log);
    k := LastRecord(log, latest[p].id);
    LatestPosition(log, k);
    assert p == |latest| - 1 - |Ids(log[k + 1..])|;
  }

  /** The list holds exactly the recent records. */
  lemma KeptIff(log: seq<Exchange>, x: Exchange)
    ensures x in Kept(log) <==> exists k: nat :: k < |log| && log[k] == x && Recent(log, k)
  {
    forall k: nat | k < |log| && log[k] == x && Recent(log, k) ensures x in Kept(log) {
      RecentIsKept(log, k);
    }
    if x in Kept(log) {
      var q: nat :| q < |Kept(log)| && Kept(log)[q] == x;
      var k := KeptIsRecent(log, q);
    }
  }

  /** At most one kept record per id, at most fifty in all. */
  lemma KeptShape(log: seq<Exchange>)
    ensures Distinct(Kept(log)) && |Kept(log)| <= 50
  {
    LatestDistinct(log);
  }

  // ---- One more record ----

  lemma {:induction false} LatestGrows(log: seq<Exchange>, x: Exchange)
    ensures Latest(log + [x]) == Without(Latest(log), x.id) + [x]
    decreases |log|
  {
    if log == [] {
      assert log + [x] == [x] && [x][1..] == [];
      assert Latest([x]) == [x];
    } else {
      var rest := log[1..];
      assert (log + [x])[1..] == rest + [x] && (log + [x])[0] == log[0];
      LatestGrows(rest, x);
      IdsConcat(rest, [x]);
      assert Ids([x]) == {x.id} by { assert [x][1..] == []; }
      WithoutFirst(log[0], Latest(rest), x.id);
    }
  }

  lemma WithoutFirst(first: Exchange, rest: seq<Exchange>, id: Id)
    ensures Without([first] + rest, id) == if first.id == id then Without(rest, id) else [first] + Without(rest, id)
  {
    assert ([first] + rest)[1..] == rest;
  }

  lemma {:induction false} WithoutConcat(a: seq<Exchange>, b: seq<Exchange>, id: Id)
    ensures Without(a + b, id) == Without(a, id) + Without(b, id)
    decreases |a|
  {
    if a == [] {
      assert a + b == b;
    } else {
      assert (a + b)[1..] == a[1..] + b;
      WithoutConcat(a[1..], b, id);
    }
  }

  lemma {:induction false} WithoutAbsent(s: seq<Exchange>, id: Id)
    requires forall i :: 0 <= i < |s| ==> s[i].id != id
    ensures Without(s, id) == s
    decreases |s|
  {
    if s != [] { WithoutAbsent(s[1..], id); }
  }

  lemma {:induction false} WithoutPresent(s: seq<Exchange>, i: nat)
    requires i < |s| && Distinct(s)
    ensures Without(s, s[i].id) == s[..i] + s[i + 1..]
    decreases |s|
  {
    if i == 0 {
      WithoutAbsent(s[1..], s[0].id);
      assert s[..0] + s[1..] == s[1..];
    } else {
      assert Distinct(s[1..]);
      WithoutPresent(s[1..], i - 1);
      assert s[..i] + s[i + 1..] == [s[0]] + (s[1..][..i - 1] + s[1..][i..]);
    }
  }

  /** Dropping old records first makes no difference to what is kept after one more. */
  lemma KeptGrows(log: seq<Exchange>, x: Exchange)
    ensures Kept(log + [x]) == Tail(Without(Kept(log), x.id) + [x])
  {
    LatestDistinct(log);
    LatestGrows(log, x);
    var latest, kept := Latest(log), Kept(log);
    var gone := latest[..|latest| - |kept|];
    assert latest == gone + kept;
    WithoutConcat(gone, kept, x.id);
    TailOfBoth(gone, kept, x);
  }

  lemma TailDrops(a: seq<Exchange>, b: seq<Exchange>)
    requires a == [] || |b| >= Capacity
    ensures Tail(a + b) == Tail(b)
  {
    if a == [] { assert a + b == b; }
  }

  lemma TailOfBoth(gone: seq<Exchange>, kept: seq<Exchange>, x: Exchange)
    requires Distinct(gone + kept) && |kept| <= Capacity && (gone != [] ==> |kept| == Capacity)
    ensures Tail(Without(gone, x.id) + Without(kept, x.id) + [x]) == Tail(Without(kept, x.id) + [x])
  {
    var a, b := Without(gone, x.id), Without(kept, x.id);
    assert a + b + [x] == a + (b + [x]);
    if i: nat :| i < |kept| && kept[i].id == x.id {
      AbsentFromFront(gone, kept, i);
      assert Distinct(kept) by {
        assert forall j :: 0 <= j < |kept| ==> kept[j] == (gone + kept)[|gone| + j];
      }
      WithoutPresent(kept, i);
    } else {
      WithoutAbsent(kept, x.id);
    }
    TailDrops(a, b + [x]);
  }

  lemma AbsentFromFront(gone: seq<Exchange>, kept: seq<Exchange>, i: nat)
    requires Distinct(gone + kept) && i < |kept|
    ensures Without(gone, kept[i].id) == gone
  {
    forall j | 0 <= j < |gone| ensures gone[j].id != kept[i].id {
      assert gone[j] == (gone + kept)[j] && kept[i] == (gone + kept)[|gone| + i];
    }
    WithoutAbsent(gone, kept[i].id);
  }

  // ---- The buffer ----

  /** The index holds exactly the listed exchanges, under their ids. */
  predicate Indexes(byId: map<Id, Exchange>, order: seq<Exchange>) {
    && (forall i :: 0 <= i < |order| ==> order[i].id in byId && byId[order[i].id] == order[i])
    && (forall id :: id in byId ==> exists i :: 0 <= i < |order| && order[i].id == id)
  }

  lemma StillListed(order: seq<Exchange>, i: nat, j: nat) returns (k: nat)
    requires i < |order| && j < |order| && i != j
    ensures k < |order| - 1 && (order[..i] + order[i + 1..])[k] == order[j]
  {
    k := if j < i then j else j - 1;
    assert (order[..i] + order[i + 1..])[k] == order[j];
  }

  lemma IndexWithout(byId: map<Id, Exchange>, order: seq<Exchange>, i: nat)
    requires i < |order| && Distinct(order) && Indexes(byId, order)
    ensures Indexes(byId - {order[i].id}, order[..i] + order[i + 1..])
  {
    var less := order[..i] + order[i + 1..];
    forall j | 0 <= j < |less| ensures less[j].id in byId && less[j].id != order[i].id && byId[less[j].id] == less[j] {
      var j' := if j < i then j else j + 1;
      assert less[j] == order[j'];
    }
    forall other | other in byId && other != order[i].id ensures exists j :: 0 <= j < |less| && less[j].id == other {
      var j :| 0 <= j < |order| && order[j].id == other;
      var k := StillListed(order, i, j);
      assert less[k].id == other;
    }
  }

  lemma DistinctWithout(order: seq<Exchange>, i: nat)
    requires i < |order| && Distinct(order)
    ensures Distinct(order[..i] + order[i + 1..])
  {
    var less := order[..i] + order[i + 1..];
    forall j, k | 0 <= j < k < |less| ensures less[j].id != less[k].id {
      var j' := if j < i then j else j + 1;
      var k' := if k < i then k else k + 1;
      assert less[j] == order[j'] && less[k] == order[k'];
    }
  }

  class AgentExchangeBuffer {
    var order: seq<Exchange>
    var byId: map<Id, Exchange>
    /** Every exchange ever recorded. */
    ghost var log: seq<Exchange>

    /** List and index hold the same exchanges, the recent ones. */
    ghost predicate Valid()
      reads this
    {
      order == Kept(log) && Indexes(byId, order)
    }

    constructor ()
      ensures Valid() && log == []
    {
      order, byId, log := [], map[], [];
    }

    method Record(x: Exchange)
      requires Valid()
      modifies this
      ensures Valid() && log == old(log) + [x]
    {
      KeptShape(log);
      KeptGrows(log, x);
      if x.id in byId {
        RemoveNode(x.id);
      } else {
        WithoutAbsent(order, x.id);
      }
      AddLast(x);
      EvictOld();
      log := log + [x];
    }

    /** Evicts from the front until the list fits. */
    method EvictOld()
      requires Distinct(order) && Indexes(byId, order)
      modifies this`order, this`byId
      ensures order == Tail(old(order)) && Indexes(byId, order)
    {
      while |order| > Capacity
        invariant Distinct(order) && Indexes(byId, order) && |order| <= |old(order)|
        invariant order == old(order)[|old(order)| - |order|..]
        invariant |old(order)| > Capacity ==> |order| >= Capacity
        invariant |old(order)| <= Capacity ==> order == old(order)
      {
        RemoveFirst();
      }
    }

    method AddLast(x: Exchange)
      requires Distinct(order) && Indexes(byId, order) && x.id !in byId
      modifies this`order, this`byId
      ensures order == old(order) + [x] && Distinct(order) && Indexes(byId, order)
    {
      ghost var was := order;
      order := order + [x];
      byId := byId[x.id := x];
      assert forall i :: 0 <= i < |was| ==> order[i] == was[i];
      assert order[|was|] == x;
    }

    method RemoveFirst()
      requires order != [] && Distinct(order) && Indexes(byId, order)
      modifies this`order, this`byId
      ensures order == old(order)[1..] && Distinct(order) && Indexes(byId, order)
    {
      ghost var was := order;
      byId := byId - {order[0].id};
      order := order[1..];
      forall id | id in byId ensures exists i :: 0 <= i < |order| && order[i].id == id {
        var i :| 0 <= i < |was| && was[i].id == id;
        assert order[i - 1].id == id;
      }
    }

    /** Takes the id's node out of the list and out of the index. */
    method RemoveNode(id: Id)
      requires id in byId && Distinct(order) && Indexes(byId, order)
      modifies this`order, this`byId
      ensures order == Without(old(order), id) && |order| == |old(order)| - 1 && id !in byId
      ensures Distinct(order) && Indexes(byId, order)
    {
      var i := 0;
      while order[i].id != id
        invariant 0 <= i < |order| && exists j :: i <= j < |order| && order[j].id == id
        decreases |order| - i
      {
        i := i + 1;
      }
      WithoutPresent(order, i);
      IndexWithout(byId, order, i);
      DistinctWithout(order, i);
      byId := byId - {id};
      order := order[..i] + order[i + 1..];
    }

    /** Finds the latest record of an id, as long as fewer than fifty other ids came after it. */
    method TryGet(id: Id) returns (found: Option<Exchange>)
      requires Valid()
      ensures found.Some? ==>
        exists k: nat :: k < |log| && log[k] == found.value && found.value.id == id && Recent(log, k)
      ensures found.None? ==> forall k: nat :: k < |log| && log[k].id == id ==> !Recent(log, k)
    {
      if id in byId {
        found := Some(byId[id]);
        var q :| 0 <= q < |order| && order[q].id == id;
        ghost var k := KeptIsRecent(log, q);
      } else {
        found := None;
        forall k: nat | k < |log| && log[k].id == id ensures !Recent(log, k) {
          if Recent(log, k) { RecentIsKept(log, k); }
        }
      }
    }
  }
}
