/** How the client's initial state meets the server's answer: the chart's
    y-axis title and the data sets it shows for the default selection. */
module Dashboard {
  import opened Datapoint
  import opened Grouping
  import opened Server
  import opened LineChart
  import opened LabelExamples
  import opened WeatherContext

  /** The initial selection is one of the parameters the server stores. */
  lemma DefaultSelectionAllowed()
    ensures forall p :: p in DefaultParams.weather ==> p in AllowedWeatherParameters
    ensures !DefaultParams.isSubmitted
  {
  }

  /** With the initial parameters the y-axis title reads "Temperature". */
  lemma DefaultTitle()
    ensures FormatLabel(DefaultParams.weather) == "Temperature"
  {
    InitialTitle(DefaultParams.weather);
  }

  /** Answering the first request, the chart with the initial selection shows
      the temperature data set and nothing else. */
  lemma DefaultSelectionShowsTemperature(obs: Observation)
    ensures FilterSelected(SingleReadings(obs), DefaultParams.weather) == [SingleReadings(obs)[0]]
  {
    var d := SingleReadings(obs);
    var w := DefaultParams.weather;
    assert d == d[..1] + d[1..];
    assert FilterSelected(d[..1], w) == [d[0]] by {
      assert d[..1][..0] == [];
    }
    SkipUnselected(d[..1], d[1..], w);
  }

  /** Appending data sets none of which is selected adds nothing shown. */
  lemma {:induction false} SkipUnselected(front: seq<DataSet>, rest: seq<DataSet>, w: seq<string>)
    requires forall i :: 0 <= i < |rest| ==> rest[i].param !in w
    ensures FilterSelected(front + rest, w) == FilterSelected(front, w)
    decreases |rest|
  {
    if |rest| > 0 {
      var n := |rest| - 1;
      assert (front + rest)[..|front + rest| - 1] == front + rest[..n];
      SkipUnselected(front, rest[..n], w);
    } else {
      assert front + rest == front;
    }
  }

  // ---------------------------------------------------------------------
  // The chart's filter against the server's grouping.
  // ---------------------------------------------------------------------

  /** The records whose parameter is selected, in order. */
  function SelectRecords(rs: seq<Record>, w: seq<string>): seq<Record> {
    if |rs| == 0 then []
    else
      var n := |rs| - 1;
      SelectRecords(rs[..n], w) + (if rs[n].parameter in w then [rs[n]] else [])
  }

  /** The names that are selected, in order. */
  function SelectNames(ps: seq<string>, w: seq<string>): (r: seq<string>)
    ensures forall p :: p in r <==> p in ps && p in w
  {
    if |ps| == 0 then []
    else
      var n := |ps| - 1;
      assert ps == ps[..n] + [ps[n]];
      SelectNames(ps[..n], w) + (if ps[n] in w then [ps[n]] else [])
  }

  /** One data set per name, holding that name's points of `rs`. */
  function Build(ps: seq<string>, rs: seq<Record>): (r: seq<DataSet>)
    ensures |r| == |ps|
    ensures forall i :: 0 <= i < |r| ==> r[i] == DataSet(ps[i], Points(rs, ps[i]))
  {
    if |ps| == 0 then []
    else
      var n := |ps| - 1;
      Build(ps[..n], rs) + [DataSet(ps[n], Points(rs, ps[n]))]
  }

  /** Filtering the grouped answer by the selection is grouping the selected
      records: the chart shows exactly the selected parameters' data, grouped
      and ordered as the server would group those records alone. */
  lemma FilterOfGrouping(rs: seq<Record>, w: seq<string>)
    ensures FilterSelected(GroupByParameter(rs), w) == GroupByParameter(SelectRecords(rs, w))
  {
    var ys := SelectRecords(rs, w);
    GroupIsBuild(rs);
    GroupIsBuild(ys);
    FilterBuild(Params(rs), rs, w);
    ParamsOfSelected(rs, w);
    var sel := SelectNames(Params(rs), w);
    forall p | p in sel
      ensures Points(rs, p) == Points(ys, p)
    {
      PointsOfSelected(rs, w, p);
    }
    BuildAgrees(sel, rs, ys);
  }

  /** The grouped answer is one data set per parameter, in first-seen order. */
  lemma GroupIsBuild(rs: seq<Record>)
    ensures GroupByParameter(rs) == Build(Params(rs), rs)
  {
  }

  /** Two record sequences with the same points for every name build alike. */
  lemma BuildAgrees(ps: seq<string>, rs: seq<Record>, ys: seq<Record>)
    requires forall p :: p in ps ==> Points(rs, p) == Points(ys, p)
    ensures Build(ps, rs) == Build(ps, ys)
  {
  }

  lemma {:induction false} FilterBuild(ps: seq<string>, rs: seq<Record>, w: seq<string>)
    ensures FilterSelected(Build(ps, rs), w) == Build(SelectNames(ps, w), rs)
  {
    if |ps| > 0 {
      FilterBuild(ps[..|ps| - 1], rs, w);
      FilterBuildStep(ps, rs, w);
    }
  }

  /** One step of `FilterBuild`: filtering after one more name. */
  lemma FilterBuildStep(ps: seq<string>, rs: seq<Record>, w: seq<string>)
    requires |ps| > 0
    requires FilterSelected(Build(ps[..|ps| - 1], rs), w) == Build(SelectNames(ps[..|ps| - 1], w), rs)
    ensures FilterSelected(Build(ps, rs), w) == Build(SelectNames(ps, w), rs)
  {
    var front, p := ps[..|ps| - 1], ps[|ps| - 1];
    var d := DataSet(p, Points(rs, p));
    var b0 := Build(front, rs);
    var prev := SelectNames(front, w);
    assert Build(ps, rs) == b0 + [d];
    FilterSnoc(b0, d, w);
    if p in w {
      assert SelectNames(ps, w) == prev + [p];
      BuildSnoc(prev, p, rs);
    } else {
      assert SelectNames(ps, w) == prev;
    }
  }

  /** Building for one more name adds that name's data set at the end. */
  lemma BuildSnoc(ps: seq<string>, p: string, rs: seq<Record>)
    ensures Build(ps + [p], rs) == Build(ps, rs) + [DataSet(p, Points(rs, p))]
  {
    assert (ps + [p])[..|ps|] == ps;
  }

  /** Filtering a sequence with one more data set decides that one alone. */
  lemma FilterSnoc(data: seq<DataSet>, d: DataSet, w: seq<string>)
    ensures FilterSelected(data + [d], w) == FilterSelected(data, w) + (if d.param in w then [d] else [])
  {
    assert (data + [d])[..|data|] == data;
  }

  lemma {:induction false} ParamsOfSelected(rs: seq<Record>, w: seq<string>)
    ensures Params(SelectRecords(rs, w)) == SelectNames(Params(rs), w)
  {
    if |rs| > 0 {
      var n := |rs| - 1;
      var x := rs[n];
      ParamsOfSelected(rs[..n], w);
      var ys := SelectRecords(rs[..n], w);
      var ps := Params(rs[..n]);
      assert Params(ys) == SelectNames(ps, w);
      if x.parameter in w {
        assert SelectRecords(rs, w) == ys + [x];
        assert (ys + [x])[..|ys|] == ys;
        assert Params(ys + [x]) == if x.parameter in Params(ys) then Params(ys) else Params(ys) + [x.parameter];
        if x.parameter !in ps {
          assert (ps + [x.parameter])[..|ps|] == ps;
          assert SelectNames(ps + [x.parameter], w) == SelectNames(ps, w) + [x.parameter];
        }
      } else {
        assert SelectRecords(rs, w) == ys;
        if x.parameter !in ps {
          assert (ps + [x.parameter])[..|ps|] == ps;
          assert SelectNames(ps + [x.parameter], w) == SelectNames(ps, w);
        }
      }
    }
  }

  lemma {:induction false} PointsOfSelected(rs: seq<Record>, w: seq<string>, p: string)
    requires p in w
    ensures Points(SelectRecords(rs, w), p) == Points(rs, p)
  {
    if |rs| > 0 {
      var n := |rs| - 1;
      var x := rs[n];
      PointsOfSelected(rs[..n], w, p);
      var ys := SelectRecords(rs[..n], w);
      assert Points(rs, p) == Points(rs[..n], p) + (if x.parameter == p then [ToPoint(x)] else []);
      if x.parameter in w {
        assert SelectRecords(rs, w) == ys + [x];
        assert (ys + [x])[..|ys|] == ys;
        assert Points(ys + [x], p) == Points(ys, p) + (if x.parameter == p then [ToPoint(x)] else []);
      } else {
        assert SelectRecords(rs, w) == ys;
        assert Points(rs, p) == Points(rs[..n], p);
      }
    }
  }
}
