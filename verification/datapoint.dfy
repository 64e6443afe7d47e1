/** The shapes that flow through the server: the persisted observation record
    (portfolio-server/src/model/Datapoint.ts) and the JSON the `/weather`
    endpoint answers with (`DataSet`, `DataPoint`). */
module Datapoint {
  import opened Options

  /** A weather reading. JavaScript numbers are doubles; the model only moves
      them around, so any type with equality serves. */
  type Value = int

  /** One stored observation. `value` is absent when the upstream answer had
      no field for the parameter (`data.current[element]` is `undefined`). */
  datatype Record = Record(
    datetime: string,
    latitude: string,
    longitude: string,
    parameter: string,
    value: Option<Value>)

  /** `{ key, value }` of the answer: the record's datetime and value. */
  datatype DataPoint = DataPoint(key: string, value: Option<Value>)

  /** `{ param, dataset }` of the answer: one parameter's points. */
  datatype DataSet = DataSet(param: string, dataset: seq<DataPoint>)

  /** The parameters the server fetches and stores, in this order. */
  const AllowedWeatherParameters: seq<string> :=
    ["temperature_2m", "relative_humidity_2m", "rain", "snowfall"]

  lemma AllowedDistinct()
    ensures Distinct(AllowedWeatherParameters)
  {
  }

  function ToPoint(r: Record): DataPoint {
    DataPoint(r.datetime, r.value)
  }

  /** No name appears twice. */
  predicate Distinct<T(==)>(s: seq<T>) {
    forall i, j :: 0 <= i < j < |s| ==> s[i] != s[j]
  }
}
