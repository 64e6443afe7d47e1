/** The client's parameter state (portfolio-client/src/contexts/WeatherContext.tsx):
    the initial parameters and `updateParams`, which spreads a partial
    record over the previous one. */
module WeatherContext {
  import opened Options

  datatype WeatherParams = WeatherParams(
    latitude: string,
    longitude: string,
    weather: seq<string>,
    isSubmitted: bool)

  /** `Partial<WeatherParams>`: a field is either supplied or absent. */
  datatype PartialParams = PartialParams(
    latitude: Option<string>,
    longitude: Option<string>,
    weather: Option<seq<string>>,
    isSubmitted: Option<bool>)

  /** `defaultParams` */
  const DefaultParams: WeatherParams :=
    WeatherParams(latitude := "55.3959", longitude := "10.3883", weather := ["temperature_2m"], isSubmitted := false)

  const NoChange: PartialParams := PartialParams(None, None, None, None)

  // ---------------------------------------------------------------------
  // Object spread over plain JavaScript objects.
  // ---------------------------------------------------------------------

  datatype JsValue = Str(s: string) | StrList(items: seq<string>) | Bool(b: bool)

  /** A plain object: its own enumerable properties by name. */
  type JsObject = map<string, JsValue>

  /** `{ ...a, ...b }`: every property of either, `b`'s value where both have one. */
  function Spread(a: JsObject, b: JsObject): (r: JsObject)
    ensures r.Keys == a.Keys + b.Keys
    ensures forall k :: k in b ==> r[k] == b[k]
    ensures forall k :: k in a && k !in b ==> r[k] == a[k]
  {
    a + b
  }

  function ToObject(p: WeatherParams): JsObject {
    map["latitude" := Str(p.latitude), "longitude" := Str(p.longitude),
        "weather" := StrList(p.weather), "isSubmitted" := Bool(p.isSubmitted)]
  }

  /** A partial as an object: only the supplied fields are properties. */
  function PartialToObject(p: PartialParams): JsObject {
    var m1: JsObject := if p.latitude.Some? then map["latitude" := Str(p.latitude.value)] else map[];
    var m2 := if p.longitude.Some? then m1["longitude" := Str(p.longitude.value)] else m1;
    var m3 := if p.weather.Some? then m2["weather" := StrList(p.weather.value)] else m2;
    if p.isSubmitted.Some? then m3["isSubmitted" := Bool(p.isSubmitted.value)] else m3
  }

  /** An object with the four fields of the right kinds. */
  predicate IsParamsObject(o: JsObject) {
    && "latitude" in o && o["latitude"].Str?
    && "longitude" in o && o["longitude"].Str?
    && "weather" in o && o["weather"].StrList?
    && "isSubmitted" in o && o["isSubmitted"].Bool?
  }

  function FromObject(o: JsObject): WeatherParams
    requires IsParamsObject(o)
  {
    WeatherParams(o["latitude"].s, o["longitude"].s, o["weather"].items, o["isSubmitted"].b)
  }

  /** Reading back a record written as an object gives the record. */
  lemma ObjectRoundTrip(p: WeatherParams)
    ensures IsParamsObject(ToObject(p)) && FromObject(ToObject(p)) == p
  {
  }

  // ---------------------------------------------------------------------
  // `updateParams`
  // ---------------------------------------------------------------------

  /** `setParams(prev => ({ ...prev, ...newParams }))`: every supplied field
      takes the new value, every other field keeps the previous one. */
  function UpdateParams(prev: WeatherParams, newParams: PartialParams): (r: WeatherParams)
    ensures r.latitude == newParams.latitude.GetOr(prev.latitude)
    ensures r.longitude == newParams.longitude.GetOr(prev.longitude)
    ensures r.weather == newParams.weather.GetOr(prev.weather)
    ensures r.isSubmitted == newParams.isSubmitted.GetOr(prev.isSubmitted)
  {
    var merged := Spread(ToObject(prev), PartialToObject(newParams));
    FromObject(merged)
  }

  /** `{ ...p, ...q }` on two partials: the fields either supplies, `q`'s where both do. */
  function Combine(p: PartialParams, q: PartialParams): PartialParams {
    PartialParams(
      if q.latitude.Some? then q.latitude else p.latitude,
      if q.longitude.Some? then q.longitude else p.longitude,
      if q.weather.Some? then q.weather else p.weather,
      if q.isSubmitted.Some? then q.isSubmitted else p.isSubmitted)
  }

  /** Merging an empty partial changes nothing. */
  lemma UpdateNoChange(prev: WeatherParams)
    ensures UpdateParams(prev, NoChange) == prev
  {
  }

  /** Applying the same partial twice is applying it once. */
  lemma UpdateIdempotent(prev: WeatherParams, p: PartialParams)
    ensures UpdateParams(UpdateParams(prev, p), p) == UpdateParams(prev, p)
  {
  }

  /** Two successive updates are one update with the later values winning. */
  lemma UpdateLaterWins(prev: WeatherParams, p: PartialParams, q: PartialParams)
    ensures UpdateParams(UpdateParams(prev, p), q) == UpdateParams(prev, Combine(p, q))
  {
  }

  /** A partial supplying every field replaces the record outright. */
  lemma UpdateFull(prev: WeatherParams, next: WeatherParams)
    ensures UpdateParams(prev, PartialParams(Some(next.latitude), Some(next.longitude), Some(next.weather), Some(next.isSubmitted))) == next
  {
  }
}
