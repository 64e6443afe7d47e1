/** The observation collection: delete-all and the ordered read
    `Datapoint.find({}).sort("datetime")`. */
module Store {
  import opened Strings
  import opened Datapoint

  /** `deleteAllDatapoints`: on success the collection is empty; a storage
      failure is caught and logged, and the collection stays as it was. */
  function DeleteAllDatapoints(store: seq<Record>, succeeded: bool): (r: seq<Record>)
    ensures succeeded ==> r == []
    ensures !succeeded ==> r == store
  {
    if succeeded then [] else store
  }

  /** Records in non-decreasing `datetime` order. */
  ghost predicate SortedByDatetime(rs: seq<Record>) {
    forall i, j :: 0 <= i < j < |rs| ==> Le(rs[i].datetime, rs[j].datetime)
  }

  /** Places `x` into sorted `t` after every record whose datetime is not
      later than its own. */
  function Insert(t: seq<Record>, x: Record): (r: seq<Record>)
    requires SortedByDatetime(t)
    ensures SortedByDatetime(r)
    ensures multiset(r) == multiset(t) + multiset{x}
    ensures |r| == |t| + 1
    ensures forall k :: 0 <= k < |r| ==> r[k] == x || r[k] in t
    decreases |t|
  {
    if |t| == 0 then [x]
    else if !Le(t[0].datetime, x.datetime) then
      LeTotal(t[0].datetime, x.datetime);
      InsertFrontSorted(t, x);
      [x] + t
    else
      var rest := Insert(t[1..], x);
      assert t == [t[0]] + t[1..];
      InsertBehindSorted(t[0], rest, t[1..], x);
      [t[0]] + rest
  }

  lemma InsertFrontSorted(t: seq<Record>, x: Record)
    requires |t| > 0 && SortedByDatetime(t)
    requires Le(x.datetime, t[0].datetime)
    ensures SortedByDatetime([x] + t)
  {
    forall j | 0 < j < |[x] + t|
      ensures Le(x.datetime, ([x] + t)[j].datetime)
    {
      if j > 1 {
        LeTransitive(x.datetime, t[0].datetime, t[j - 1].datetime);
      }
    }
  }

  lemma InsertBehindSorted(h: Record, rest: seq<Record>, tail: seq<Record>, x: Record)
    requires SortedByDatetime(rest)
    requires Le(h.datetime, x.datetime)
    requires forall k :: 0 <= k < |tail| ==> Le(h.datetime, tail[k].datetime)
    requires forall k :: 0 <= k < |rest| ==> rest[k] == x || rest[k] in tail
    ensures SortedByDatetime([h] + rest)
  {
    forall j | 0 < j < |[h] + rest|
      ensures Le(h.datetime, ([h] + rest)[j].datetime)
    {
      var y := rest[j - 1];
      if y != x {
        var k :| 0 <= k < |tail| && tail[k] == y;
      }
    }
  }

  /** The collection in `datetime` order. The database leaves the order among
      equal datetimes open; here `Insert` places each record after the earlier
      records with the same datetime. */
  function SortByDatetime(rs: seq<Record>): (r: seq<Record>)
    ensures SortedByDatetime(r)
    ensures multiset(r) == multiset(rs)
    ensures |r| == |rs|
  {
    if |rs| == 0 then []
    else
      var n := |rs| - 1;
      assert rs == rs[..n] + [rs[n]];
      Insert(SortByDatetime(rs[..n]), rs[n])
  }

  /** A collection already in order is returned as it is. */
  lemma {:induction false} SortSortedIsIdentity(rs: seq<Record>)
    requires SortedByDatetime(rs)
    ensures SortByDatetime(rs) == rs
  {
    if |rs| > 0 {
      var n := |rs| - 1;
      assert SortedByDatetime(rs[..n]);
      SortSortedIsIdentity(rs[..n]);
      InsertAfterAll(rs[..n], rs[n]);
      assert rs[..n] + [rs[n]] == rs;
    }
  }

  /** A record not earlier than every record of `t` goes to the end. */
  lemma {:induction false} InsertAfterAll(t: seq<Record>, x: Record)
    requires SortedByDatetime(t)
    requires forall k :: 0 <= k < |t| ==> Le(t[k].datetime, x.datetime)
    ensures Insert(t, x) == t + [x]
    decreases |t|
  {
    if |t| > 0 {
      assert SortedByDatetime(t[1..]);
      InsertAfterAll(t[1..], x);
      assert t == [t[0]] + t[1..];
    }
  }

  /** How many records carry parameter `p`. */
  function CountParam(rs: seq<Record>, p: string): nat {
    if |rs| == 0 then 0
    else CountParam(rs[..|rs| - 1], p) + (if rs[|rs| - 1].parameter == p then 1 else 0)
  }

  lemma {:induction false} CountAppend(a: seq<Record>, b: seq<Record>, p: string)
    ensures CountParam(a + b, p) == CountParam(a, p) + CountParam(b, p)
    decreases |b|
  {
    if |b| > 0 {
      var n := |b| - 1;
      assert (a + b)[..|a + b| - 1] == a + b[..n];
      assert (a + b)[|a + b| - 1] == b[n];
      CountAppend(a, b[..n], p);
    } else {
      assert a + b == a;
    }
  }

  /** Reordering the collection does not change any parameter's count. */
  lemma {:induction false} CountPermutation(a: seq<Record>, b: seq<Record>, p: string)
    requires multiset(a) == multiset(b)
    ensures CountParam(a, p) == CountParam(b, p)
    decreases |a|
  {
    if |a| == 0 {
      assert |b| == |multiset(b)| == 0;
    } else {
      var n := |a| - 1;
      var x := a[n];
      assert a == a[..n] + [x];
      assert x in multiset(b);
      var i :| 0 <= i < |b| && b[i] == x;
      var b' := b[..i] + b[i + 1..];
      assert b == b[..i] + [x] + b[i + 1..];
      assert multiset(b') == multiset(b) - multiset{x};
      assert multiset(a[..n]) == multiset(a) - multiset{x};
      CountPermutation(a[..n], b', p);
      CountAppend(b[..i], b[i + 1..], p);
      CountAppend(b[..i] + [x], b[i + 1..], p);
      CountAppend(b[..i], [x], p);
      assert CountParam([x], p) == (if x.parameter == p then 1 else 0) by {
        assert [x][..0] == [];
      }
    }
  }
}
