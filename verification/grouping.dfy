/** `returnAllData`: the datetime-ordered records are folded into an object
    keyed by parameter, whose entries become the `/weather` answer. */
module Grouping {
  import opened Strings
  import opened Datapoint
  import opened Store

  /** The accumulator `{ [key: string]: DataPoint[] }`. A JavaScript object
      lists its (non-numeric) string keys in the order they were first added,
      so the key order is kept beside the contents. */
  datatype Groups = Groups(keys: seq<string>, points: map<string, seq<DataPoint>>)

  ghost predicate WellFormed(g: Groups) {
    && Distinct(g.keys)
    && (forall p :: p in g.points <==> p in g.keys)
  }

  // ---------------------------------------------------------------------
  // Reference definitions: which parameters occur, and each one's points.
  // ---------------------------------------------------------------------

  /** The parameters of `rs`, each once, in order of first occurrence. */
  function Params(rs: seq<Record>): seq<string> {
    if |rs| == 0 then []
    else
      var ps := Params(rs[..|rs| - 1]);
      var p := rs[|rs| - 1].parameter;
      if p in ps then ps else ps + [p]
  }

  /** The points of the records carrying parameter `p`, in record order. */
  function Points(rs: seq<Record>, p: string): seq<DataPoint> {
    if |rs| == 0 then []
    else
      var x := rs[|rs| - 1];
      Points(rs[..|rs| - 1], p) + (if x.parameter == p then [ToPoint(x)] else [])
  }

  // ---------------------------------------------------------------------
  // The grouping as the source performs it.
  // ---------------------------------------------------------------------

  /** One step of the reduce: create the key's empty array the first time the
      parameter is seen, then push the record's `{ key, value }`. */
  function AddRecord(acc: Groups, item: Record): (r: Groups)
    ensures item.parameter in acc.points ==> r.keys == acc.keys
    ensures item.parameter !in acc.points ==> r.keys == acc.keys + [item.parameter]
    ensures r.points.Keys == acc.points.Keys + {item.parameter}
    ensures r.points[item.parameter]
      == (if item.parameter in acc.points then acc.points[item.parameter] else []) + [ToPoint(item)]
    ensures forall p :: p in acc.points && p != item.parameter ==> r.points[p] == acc.points[p]
    ensures WellFormed(acc) ==> WellFormed(r)
  {
    var created :=
      if item.parameter !in acc.points
      then Groups(acc.keys + [item.parameter], acc.points[item.parameter := []])
      else acc;
    created.(points := created.points[item.parameter := created.points[item.parameter] + [ToPoint(item)]])
  }

  /** The reduce over the records, starting from `{}`. */
  function GroupRecords(rs: seq<Record>): (g: Groups)
    ensures WellFormed(g)
    ensures g.keys == Params(rs)
    ensures forall p :: p in g.points ==> g.points[p] == Points(rs, p)
  {
    if |rs| == 0 then Groups([], map[])
    else
      var n := |rs| - 1;
      var g := GroupRecords(rs[..n]);
      if rs[n].parameter !in g.points then
        AbsentNoPoints(rs[..n], rs[n].parameter);
        AddRecord(g, rs[n])
      else
        AddRecord(g, rs[n])
  }

  /** `Object.entries(groupedData)` turned into `{ param, dataset }` objects. */
  function Entries(g: Groups): (r: seq<DataSet>)
    requires WellFormed(g)
    ensures |r| == |g.keys|
    ensures forall i :: 0 <= i < |r| ==> r[i].param == g.keys[i] && r[i].dataset == g.points[g.keys[i]]
    ensures Distinct(ParamNames(r))
    ensures forall p :: p in g.points ==> exists i :: 0 <= i < |r| && r[i].param == p
  {
    seq(|g.keys|, i requires 0 <= i < |g.keys| => DataSet(g.keys[i], g.points[g.keys[i]]))
  }

  /** The grouping: one data set per parameter that occurs, in order of first
      occurrence, holding exactly that parameter's points in record order. */
  function GroupByParameter(rs: seq<Record>): (r: seq<DataSet>)
    ensures |r| == |Params(rs)|
    ensures forall i :: 0 <= i < |r| ==> r[i].param == Params(rs)[i]
    ensures forall i :: 0 <= i < |r| ==> r[i].dataset == Points(rs, r[i].param)
  {
    Entries(GroupRecords(rs))
  }

  /** The total number of points over all data sets. */
  function TotalPoints(ds: seq<DataSet>): nat {
    if |ds| == 0 then 0 else |ds[0].dataset| + TotalPoints(ds[1..])
  }

  /** A data set whose keys (datetimes) are in non-decreasing order. */
  ghost predicate KeysSorted(ps: seq<DataPoint>) {
    forall i, j :: 0 <= i < j < |ps| ==> Le(ps[i].key, ps[j].key)
  }

  /** The parameter names of the data sets, in order. */
  function ParamNames(ds: seq<DataSet>): seq<string> {
    seq(|ds|, i requires 0 <= i < |ds| => ds[i].param)
  }

  /** `returnAllData`: read the collection in datetime order and group it. */
  function ReturnAllData(store: seq<Record>): (r: seq<DataSet>)
    ensures Distinct(ParamNames(r))
    ensures forall i :: 0 <= i < |r| ==> |r[i].dataset| == CountParam(store, r[i].param) > 0
    ensures forall k :: 0 <= k < |store| ==> store[k].parameter in ParamNames(r)
    ensures TotalPoints(r) == |store|
    ensures forall i :: 0 <= i < |r| ==> KeysSorted(r[i].dataset)
  {
    var sorted := SortByDatetime(store);
    ReadDistinctAndCounted(store);
    ReadCovers(store);
    GroupTotal(sorted);
    GroupByParameter(sorted)
  }

  lemma ReadDistinctAndCounted(store: seq<Record>)
    ensures var r := GroupByParameter(SortByDatetime(store));
      && Distinct(ParamNames(r))
      && (forall i :: 0 <= i < |r| ==> |r[i].dataset| == CountParam(store, r[i].param) > 0)
      && (forall i :: 0 <= i < |r| ==> KeysSorted(r[i].dataset))
  {
    var sorted := SortByDatetime(store);
    var r := GroupByParameter(sorted);
    ParamsDistinct(sorted);
    assert ParamNames(r) == Params(sorted);
    forall i | 0 <= i < |r|
      ensures |r[i].dataset| == CountParam(store, r[i].param) > 0
      ensures KeysSorted(r[i].dataset)
    {
      PointsCount(sorted, r[i].param);
      CountPermutation(sorted, store, r[i].param);
      ParamsOccur(sorted, r[i].param);
      PointsSorted(sorted, r[i].param);
    }
  }

  lemma ReadCovers(store: seq<Record>)
    ensures var r := GroupByParameter(SortByDatetime(store));
      forall k :: 0 <= k < |store| ==> store[k].parameter in ParamNames(r)
  {
    var sorted := SortByDatetime(store);
    NamesOfGrouping(sorted);
    ParamsOfPermutation(store, sorted);
  }

  /** What the answer holds: one data set per parameter, in order of first
      occurrence in the datetime-ordered collection, each holding that
      parameter's points in datetime order, and these are exactly the
      stored points of that parameter, reordered. */
  lemma ReadContents(store: seq<Record>)
    ensures var sorted := SortByDatetime(store); var r := ReturnAllData(store);
      && ParamNames(r) == Params(sorted)
      && (forall i :: 0 <= i < |r| ==> r[i].dataset == Points(sorted, r[i].param))
      && (forall i :: 0 <= i < |r| ==> multiset(r[i].dataset) == multiset(Points(store, r[i].param)))
  {
    var sorted := SortByDatetime(store);
    var r := GroupByParameter(sorted);
    NamesOfGrouping(sorted);
    forall i | 0 <= i < |r|
      ensures multiset(r[i].dataset) == multiset(Points(store, r[i].param))
    {
      PointsPermutation(sorted, store, r[i].param);
    }
  }

  /** Every stored record's point is in the data set of its parameter. */
  lemma ReadPlacesEveryRecord(store: seq<Record>)
    ensures var r := ReturnAllData(store);
      forall k :: 0 <= k < |store| ==>
        exists i :: 0 <= i < |r| && r[i].param == store[k].parameter && ToPoint(store[k]) in r[i].dataset
  {
    var sorted := SortByDatetime(store);
    assert ReturnAllData(store) == GroupByParameter(sorted);
    PlacesEveryRecord(store, sorted);
  }

  /** Grouping any reordering of the records places each record's point in
      the data set of its parameter. */
  lemma PlacesEveryRecord(store: seq<Record>, sorted: seq<Record>)
    requires multiset(store) == multiset(sorted)
    ensures var r := GroupByParameter(sorted);
      forall k :: 0 <= k < |store| ==>
        exists i :: 0 <= i < |r| && r[i].param == store[k].parameter && ToPoint(store[k]) in r[i].dataset
  {
    var r := GroupByParameter(sorted);
    forall k | 0 <= k < |store|
      ensures exists i :: 0 <= i < |r| && r[i].param == store[k].parameter && ToPoint(store[k]) in r[i].dataset
    {
      assert store[k] in multiset(sorted);
      var j :| 0 <= j < |sorted| && sorted[j] == store[k];
      RecordInOwnGroup(sorted, j);
    }
  }

  /** The answer's names are the parameters in first-occurrence order. */
  lemma NamesOfGrouping(rs: seq<Record>)
    ensures ParamNames(GroupByParameter(rs)) == Params(rs)
  {
  }

  /** Every record's parameter is listed for any reordering of the records. */
  lemma ParamsOfPermutation(a: seq<Record>, b: seq<Record>)
    requires multiset(a) == multiset(b)
    ensures forall k :: 0 <= k < |a| ==> a[k].parameter in Params(b)
  {
    forall k | 0 <= k < |a|
      ensures a[k].parameter in Params(b)
    {
      assert a[k] in multiset(b);
      var j :| 0 <= j < |b| && b[j] == a[k];
      ParamsOccur(b, a[k].parameter);
    }
  }

  // ---------------------------------------------------------------------
  // Lemmas about the reference definitions.
  // ---------------------------------------------------------------------

  lemma {:induction false} ParamsDistinct(rs: seq<Record>)
    ensures Distinct(Params(rs))
  {
    if |rs| > 0 {
      ParamsDistinct(rs[..|rs| - 1]);
    }
  }

  /** A parameter is listed exactly when some record carries it, and then it
      has at least one record. */
  lemma {:induction false} ParamsOccur(rs: seq<Record>, p: string)
    ensures p in Params(rs) <==> exists k :: 0 <= k < |rs| && rs[k].parameter == p
    ensures p in Params(rs) <==> CountParam(rs, p) > 0
  {
    if |rs| > 0 {
      var n := |rs| - 1;
      ParamsOccur(rs[..n], p);
      if exists k :: 0 <= k < |rs| && rs[k].parameter == p {
        var k :| 0 <= k < |rs| && rs[k].parameter == p;
        if k < n {
          assert rs[..n][k].parameter == p;
        }
      }
      if exists k :: 0 <= k < n && rs[..n][k].parameter == p {
        var k :| 0 <= k < n && rs[..n][k].parameter == p;
        assert rs[k].parameter == p;
      }
    }
  }

  /** The parameters of a prefix of the records are a prefix of the
      parameters of all of them: the listing is in first-occurrence order. */
  lemma {:induction false} ParamsPrefix(rs: seq<Record>, m: nat)
    requires m <= |rs|
    ensures Params(rs[..m]) <= Params(rs)
    decreases |rs|
  {
    if m < |rs| {
      var n := |rs| - 1;
      assert rs[..n][..m] == rs[..m];
      ParamsPrefix(rs[..n], m);
    } else {
      assert rs[..m] == rs;
    }
  }

  lemma {:induction false} PointsCount(rs: seq<Record>, p: string)
    ensures |Points(rs, p)| == CountParam(rs, p)
  {
    if |rs| > 0 {
      PointsCount(rs[..|rs| - 1], p);
    }
  }

  /** Every point of `p`'s data set comes from a record carrying `p`. */
  lemma {:induction false} PointsFrom(rs: seq<Record>, p: string, i: nat)
    requires i < |Points(rs, p)|
    ensures exists k :: 0 <= k < |rs| && rs[k].parameter == p && Points(rs, p)[i] == ToPoint(rs[k])
  {
    var n := |rs| - 1;
    if i < |Points(rs[..n], p)| {
      PointsFrom(rs[..n], p, i);
      var k :| 0 <= k < n && rs[..n][k].parameter == p && Points(rs[..n], p)[i] == ToPoint(rs[..n][k]);
      assert rs[k] == rs[..n][k];
    } else {
      assert Points(rs, p)[i] == ToPoint(rs[n]);
    }
  }

  lemma {:induction false} PointsAppend(a: seq<Record>, b: seq<Record>, p: string)
    ensures Points(a + b, p) == Points(a, p) + Points(b, p)
    decreases |b|
  {
    if |b| > 0 {
      var n := |b| - 1;
      assert (a + b)[..|a + b| - 1] == a + b[..n];
      assert (a + b)[|a + b| - 1] == b[n];
      PointsAppend(a, b[..n], p);
    } else {
      assert a + b == a;
    }
  }

  /** Reordering the records reorders each parameter's points, no more. */
  lemma {:induction false} PointsPermutation(a: seq<Record>, b: seq<Record>, p: string)
    requires multiset(a) == multiset(b)
    ensures multiset(Points(a, p)) == multiset(Points(b, p))
    decreases |a|
  {
    if |a| == 0 {
      assert |b| == |multiset(b)| == 0;
    } else {
      var n := |a| - 1;
      var x := a[n];
      assert a == a[..n] + [x];
      assert x in multiset(b);
      var i :| 0 <= i < |b| && b[i] == x;
      var b' := b[..i] + b[i + 1..];
      assert b == b[..i] + [x] + b[i + 1..];
      assert multiset(b') == multiset(b) - multiset{x};
      assert multiset(a[..n]) == multiset(a) - multiset{x};
      PointsPermutation(a[..n], b', p);
      PointsWithout(b, i, p);
    }
  }

  /** The points of `b` are those of `b` without its `i`-th record, plus
      that record's own point if it carries `p`. */
  lemma PointsWithout(b: seq<Record>, i: nat, p: string)
    requires i < |b|
    ensures multiset(Points(b, p))
      == multiset(Points(b[..i] + b[i + 1..], p)) + multiset(if b[i].parameter == p then [ToPoint(b[i])] else [])
  {
    var x := b[i];
    assert b == b[..i] + [x] + b[i + 1..];
    PointsAppend(b[..i], b[i + 1..], p);
    PointsAppend(b[..i] + [x], b[i + 1..], p);
    PointsAppend(b[..i], [x], p);
    assert Points([x], p) == (if x.parameter == p then [ToPoint(x)] else []) by {
      assert [x][..0] == [];
    }
  }

  /** The point of every record carrying `p` is in `p`'s data set. */
  lemma {:induction false} PointsContain(rs: seq<Record>, k: nat)
    requires k < |rs|
    ensures ToPoint(rs[k]) in Points(rs, rs[k].parameter)
  {
    var n := |rs| - 1;
    if k < n {
      assert rs[..n][k] == rs[k];
      PointsContain(rs[..n], k);
    }
  }

  /** Filtering keeps the datetime order of sorted records. */
  lemma {:induction false} PointsSorted(rs: seq<Record>, p: string)
    requires SortedByDatetime(rs)
    ensures KeysSorted(Points(rs, p))
  {
    if |rs| > 0 {
      var n := |rs| - 1;
      assert SortedByDatetime(rs[..n]);
      PointsSorted(rs[..n], p);
      var prev := Points(rs[..n], p);
      forall i | 0 <= i < |prev|
        ensures Le(prev[i].key, rs[n].datetime)
      {
        PointsFrom(rs[..n], p, i);
        var k :| 0 <= k < n && rs[..n][k].parameter == p && prev[i] == ToPoint(rs[..n][k]);
        assert rs[..n][k] == rs[k];
      }
    }
  }

  /** The parameters of the records, one per record. */
  function RecordParams(rs: seq<Record>): seq<string> {
    seq(|rs|, k requires 0 <= k < |rs| => rs[k].parameter)
  }

  /** Records whose parameters are pairwise different each form a data set of
      their own, in record order. */
  lemma GroupDistinctParameters(rs: seq<Record>)
    requires Distinct(RecordParams(rs))
    ensures |GroupByParameter(rs)| == |rs|
    ensures forall k :: 0 <= k < |rs| ==> GroupByParameter(rs)[k] == DataSet(rs[k].parameter, [ToPoint(rs[k])])
  {
    ParamsOfDistinct(rs);
    forall k | 0 <= k < |rs|
      ensures Points(rs, rs[k].parameter) == [ToPoint(rs[k])]
    {
      PointsOfDistinct(rs, k);
    }
  }

  lemma {:induction false} ParamsOfDistinct(rs: seq<Record>)
    requires Distinct(RecordParams(rs))
    ensures Params(rs) == RecordParams(rs)
  {
    if |rs| > 0 {
      var n := |rs| - 1;
      assert RecordParams(rs[..n]) == RecordParams(rs)[..n];
      ParamsOfDistinct(rs[..n]);
      assert RecordParams(rs) == RecordParams(rs[..n]) + [rs[n].parameter];
      forall j | 0 <= j < n
        ensures RecordParams(rs[..n])[j] != rs[n].parameter
      {
        assert RecordParams(rs)[j] != RecordParams(rs)[n];
      }
    }
  }

  lemma {:induction false} PointsOfDistinct(rs: seq<Record>, k: nat)
    requires Distinct(RecordParams(rs))
    requires k < |rs|
    ensures Points(rs, rs[k].parameter) == [ToPoint(rs[k])]
  {
    var n := |rs| - 1;
    var p := rs[k].parameter;
    assert RecordParams(rs[..n]) == RecordParams(rs)[..n];
    if k == n {
      forall j | 0 <= j < n
        ensures rs[..n][j].parameter != p
      {
        assert RecordParams(rs)[j] != RecordParams(rs)[n];
      }
      ParamsOccur(rs[..n], p);
      AbsentNoPoints(rs[..n], p);
    } else {
      assert rs[..n][k] == rs[k];
      PointsOfDistinct(rs[..n], k);
      assert RecordParams(rs)[k] != RecordParams(rs)[n];
    }
  }

  /** With pairwise different parameters, a parameter has one record if it
      occurs and none otherwise. */
  lemma {:induction false} CountDistinct(rs: seq<Record>, p: string)
    requires Distinct(RecordParams(rs))
    ensures CountParam(rs, p) == if p in RecordParams(rs) then 1 else 0
  {
    if |rs| > 0 {
      var n := |rs| - 1;
      assert RecordParams(rs[..n]) == RecordParams(rs)[..n];
      assert RecordParams(rs) == RecordParams(rs[..n]) + [rs[n].parameter];
      CountDistinct(rs[..n], p);
      if rs[n].parameter == p {
        forall j | 0 <= j < n
          ensures RecordParams(rs[..n])[j] != p
        {
          assert RecordParams(rs)[j] != RecordParams(rs)[n];
        }
      }
    }
  }

  lemma AbsentNoPoints(rs: seq<Record>, p: string)
    requires p !in Params(rs)
    ensures Points(rs, p) == []
  {
    ParamsOccur(rs, p);
    PointsCount(rs, p);
  }

  // ---------------------------------------------------------------------
  // Lemmas about the grouping.
  // ---------------------------------------------------------------------

  /** Every record is counted in exactly one data set: the one for its own
      parameter, which holds the record's point. */
  lemma RecordInOwnGroup(rs: seq<Record>, k: nat)
    requires k < |rs|
    ensures exists i ::
      && 0 <= i < |GroupByParameter(rs)|
      && GroupByParameter(rs)[i].param == rs[k].parameter
      && ToPoint(rs[k]) in GroupByParameter(rs)[i].dataset
    ensures forall i, j :: 0 <= i < j < |GroupByParameter(rs)| ==>
      GroupByParameter(rs)[i].param != GroupByParameter(rs)[j].param
  {
    var r := GroupByParameter(rs);
    ParamsDistinct(rs);
    ParamsOccur(rs, rs[k].parameter);
    var i :| 0 <= i < |Params(rs)| && Params(rs)[i] == rs[k].parameter;
    PointsContain(rs, k);
    assert r[i].param == rs[k].parameter && ToPoint(rs[k]) in r[i].dataset;
  }

  /** No data set is empty. */
  lemma NoEmptyGroup(rs: seq<Record>)
    ensures forall i :: 0 <= i < |GroupByParameter(rs)| ==> |GroupByParameter(rs)[i].dataset| > 0
  {
    var r := GroupByParameter(rs);
    forall i | 0 <= i < |r|
      ensures |r[i].dataset| > 0
    {
      ParamsOccur(rs, r[i].param);
      PointsCount(rs, r[i].param);
    }
  }

  /** The data sets together hold exactly as many points as there are records. */
  lemma GroupTotal(rs: seq<Record>)
    ensures TotalPoints(GroupByParameter(rs)) == |rs|
  {
    var ps := Params(rs);
    ParamsDistinct(rs);
    forall k | 0 <= k < |rs|
      ensures rs[k].parameter in ps
    {
      ParamsOccur(rs, rs[k].parameter);
    }
    TotalIsSumOfCounts(GroupByParameter(rs), ps, rs);
    SumCountsCoversAll(ps, rs);
  }

  /** `Σ CountParam(rs, p)` over the parameters `ps`. */
  function SumCounts(ps: seq<string>, rs: seq<Record>): nat {
    if |ps| == 0 then 0 else CountParam(rs, ps[0]) + SumCounts(ps[1..], rs)
  }

  lemma {:induction false} TotalIsSumOfCounts(ds: seq<DataSet>, ps: seq<string>, rs: seq<Record>)
    requires |ds| == |ps|
    requires forall i :: 0 <= i < |ds| ==> ds[i].param == ps[i] && ds[i].dataset == Points(rs, ps[i])
    ensures TotalPoints(ds) == SumCounts(ps, rs)
  {
    if |ds| > 0 {
      PointsCount(rs, ps[0]);
      TotalIsSumOfCounts(ds[1..], ps[1..], rs);
    }
  }

  /** Adding one record raises the sum over distinct parameters by one when its
      parameter is among them. */
  lemma {:induction false} SumCountsSnoc(ps: seq<string>, rs: seq<Record>, x: Record)
    requires Distinct(ps)
    ensures SumCounts(ps, rs + [x]) == SumCounts(ps, rs) + (if x.parameter in ps then 1 else 0)
  {
    if |ps| > 0 {
      assert (rs + [x])[..|rs + [x]| - 1] == rs;
      SumCountsSnoc(ps[1..], rs, x);
      assert x.parameter in ps <==> x.parameter == ps[0] || x.parameter in ps[1..];
      if x.parameter == ps[0] {
        assert x.parameter !in ps[1..];
      }
    }
  }

  /** Over distinct parameters that include every record's, the counts sum to
      the number of records. */
  lemma {:induction false} SumCountsCoversAll(ps: seq<string>, rs: seq<Record>)
    requires Distinct(ps)
    requires forall k :: 0 <= k < |rs| ==> rs[k].parameter in ps
    ensures SumCounts(ps, rs) == |rs|
  {
    if |rs| == 0 {
      SumCountsEmpty(ps);
    } else {
      var n := |rs| - 1;
      SumCountsCoversAll(ps, rs[..n]);
      assert rs[..n] + [rs[n]] == rs;
      SumCountsSnoc(ps, rs[..n], rs[n]);
    }
  }

  lemma {:induction false} SumCountsEmpty(ps: seq<string>)
    ensures SumCounts(ps, []) == 0
  {
    if |ps| > 0 {
      SumCountsEmpty(ps[1..]);
    }
  }
}
