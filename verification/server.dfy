/** The `/weather` gateway and its process-wide state (portfolio-server/src/server.ts).
    The process is a state record driven by two kinds of event: an HTTP
    request to `/weather`, and a firing of the refresh job. The outcomes of the
    I/O the handlers perform (the delete, the upstream fetch) are part of each
    event, so every transition is a pure function. */
module Server {
  import opened Options
  import opened Strings
  import opened Datapoint
  import opened Store
  import opened Grouping

  /** `req.query`: the query arguments of a request by name. */
  type Query = map<string, string>

  /** The `current` block of an upstream answer: its `time` and its fields. */
  datatype Observation = Observation(time: string, current: map<string, Value>)

  /** The upstream call: an observation, or a rejection (network error,
      unparseable body, no `current` block). */
  datatype FetchResult = Fetched(observation: Observation) | FetchFailed

  /** The outcomes of the I/O a session start performs: whether
      `Datapoint.deleteMany` succeeded, and what the fetch yielded. */
  datatype StartIo = StartIo(deleteSucceeded: bool, fetched: FetchResult)

  datatype Response =
    | Json(data: seq<DataSet>)
    | Status500(error: string)
      /** The start's fetch rejected: the rejection escapes `startNewRequest`
          and nothing is ever written to the response. */
    | Unanswered

  /** The module-level state: the `running` flag, the `params` dictionary,
      the observation collection, how many refresh jobs are registered and how
      many `NewDataAvailable` events have been emitted. */
  datatype ServerState = ServerState(
    running: bool,
    params: map<string, string>,
    store: seq<Record>,
    cronJobs: nat,
    broadcasts: nat)

  /** A state after a request, and what the request was answered with. */
  datatype Handled = Handled(state: ServerState, response: Response)

  const MissingCoordinates: string := "Latitude and longitude are required"
  const NoParameters: string := "No parameters provided"

  /** What every reachable state satisfies: the defaults are set, at most one
      refresh job exists, and a job only exists once a session has coordinates. */
  ghost predicate Inv(s: ServerState) {
    && "timezone" in s.params
    && "models" in s.params
    && s.cronJobs <= 1
    && (s.cronJobs == 1 ==> s.running && "latitude" in s.params && "longitude" in s.params)
  }

  /** `setDefaultParams(timezone, models)` */
  function SetDefaultParams(params: map<string, string>, timezone: string, models: string): (r: map<string, string>)
    ensures r.Keys == params.Keys + {"timezone", "models"}
    ensures r["timezone"] == timezone && r["models"] == models
    ensures forall k :: k in params && k != "timezone" && k != "models" ==> r[k] == params[k]
  {
    params["timezone" := timezone]["models" := models]
  }

  /** Module load: the collection keeps whatever the startup
      `deleteAllDatapoints()` did not remove, the defaults are set and
      `running` is false. */
  function Boot(persisted: seq<Record>, deleteSucceeded: bool): (s: ServerState)
    ensures Inv(s) && !s.running && s.cronJobs == 0 && s.broadcasts == 0
    ensures deleteSucceeded ==> s.store == []
  {
    ServerState(
      running := false,
      params := SetDefaultParams(map[], "auto", "best_match"),
      store := DeleteAllDatapoints(persisted, deleteSucceeded),
      cronJobs := 0,
      broadcasts := 0)
  }

  /** A query argument as the handler sees it: present and non-empty (a
      JavaScript truthy string), or absent. */
  function QueryArg(q: Query, name: string): (r: Option<string>)
    ensures r.Some? <==> name in q && q[name] != ""
    ensures r.Some? ==> r.value == q[name]
  {
    if name in q && q[name] != "" then Some(q[name]) else None
  }

  /** A field of the upstream `current` block; `undefined` when missing. */
  function Lookup(current: map<string, Value>, name: string): (r: Option<Value>)
    ensures r.Some? <==> name in current
    ensures r.Some? ==> r.value == current[name]
  {
    if name in current then Some(current[name]) else None
  }

  /** The records one fetch creates: one per allowed parameter, in the order
      of `allowedWeatherParameters`, all with the observation's time and the
      session's coordinates. */
  function NewBatch(latitude: string, longitude: string, obs: Observation): (b: seq<Record>)
    ensures RecordParams(b) == AllowedWeatherParameters
    ensures forall i :: 0 <= i < |b| ==>
      && b[i].datetime == obs.time
      && b[i].latitude == latitude
      && b[i].longitude == longitude
      && b[i].value == Lookup(obs.current, b[i].parameter)
  {
    BatchFor(AllowedWeatherParameters, latitude, longitude, obs)
  }

  /** `names.forEach(element => Datapoint.create(...))` */
  function BatchFor(names: seq<string>, latitude: string, longitude: string, obs: Observation): (b: seq<Record>)
    ensures RecordParams(b) == names
    ensures forall i :: 0 <= i < |b| ==>
      && b[i].datetime == obs.time
      && b[i].latitude == latitude
      && b[i].longitude == longitude
      && b[i].value == Lookup(obs.current, b[i].parameter)
  {
    seq(|names|, i requires 0 <= i < |names| => Record(obs.time, latitude, longitude, names[i], Lookup(obs.current, names[i])))
  }

  /** `fetchNewData`: on success the batch is appended to the collection
      (the writes are taken to complete in order); on a rejection nothing is
      written and the rejection is passed on (`None`). */
  function FetchNewData(s: ServerState, fetched: FetchResult): (r: Option<ServerState>)
    requires "latitude" in s.params && "longitude" in s.params
    ensures fetched.FetchFailed? <==> r.None?
    ensures r.Some? ==> r.value == s.(store := s.store + NewBatch(s.params["latitude"], s.params["longitude"], fetched.observation))
  {
    match fetched
    case FetchFailed => None
    case Fetched(obs) => Some(s.(store := s.store + NewBatch(s.params["latitude"], s.params["longitude"], obs)))
  }

  /** `startFetchingCronjob`: registers one more refresh job. */
  function StartFetchingCronjob(s: ServerState): (r: ServerState)
    ensures r.cronJobs == s.cronJobs + 1
    ensures r == s.(cronJobs := r.cronJobs)
  {
    s.(cronJobs := s.cronJobs + 1)
  }

  /** `alertClient`: one `NewDataAvailable` emission. */
  function AlertClient(s: ServerState): (r: ServerState)
    ensures r.broadcasts == s.broadcasts + 1
    ensures r == s.(broadcasts := r.broadcasts)
  {
    s.(broadcasts := s.broadcasts + 1)
  }

  /** `startNewRequest`, entered with `running` already set: record whichever
      coordinates are present, refuse if either is missing, fix the fetched
      parameters to all allowed ones, then clear, fetch, register the job and
      answer with the grouped collection. */
  function StartNewRequest(s: ServerState, q: Query, io: StartIo): (h: Handled)
    ensures h.state.running == s.running
    ensures QueryArg(q, "latitude").Some? ==>
      "latitude" in h.state.params && h.state.params["latitude"] == q["latitude"]
    ensures QueryArg(q, "longitude").Some? ==>
      "longitude" in h.state.params && h.state.params["longitude"] == q["longitude"]
    ensures QueryArg(q, "latitude").None? || QueryArg(q, "longitude").None? ==>
      && h.response == Status500(MissingCoordinates)
      && h.state.store == s.store
      && h.state.cronJobs == s.cronJobs
      && h.state.broadcasts == s.broadcasts
    ensures QueryArg(q, "latitude").Some? && QueryArg(q, "longitude").Some? ==>
      && "weather" in h.state.params
      && h.state.params["weather"] == Join(AllowedWeatherParameters, ",")
      && !h.response.Status500?
  {
    var latitude := QueryArg(q, "latitude");
    var longitude := QueryArg(q, "longitude");
    var s1 := s.(params := RecordCoordinates(s.params, latitude, longitude));
    if latitude.None? || longitude.None? then
      Handled(s1, Status500(MissingCoordinates))
    else
      var s2 := s1.(params := s1.params["weather" := Join(AllowedWeatherParameters, ",")]);
      if s2.params == map[] then
        Handled(s2, Status500(NoParameters))
      else
        FetchAndServe(s2, io)
  }

  /** Stores each coordinate that is present; an absent one leaves the
      previous value (if any) in place. */
  function RecordCoordinates(params: map<string, string>, latitude: Option<string>, longitude: Option<string>): (r: map<string, string>)
    ensures r.Keys == params.Keys
      + (if latitude.Some? then {"latitude"} else {})
      + (if longitude.Some? then {"longitude"} else {})
    ensures latitude.Some? ==> r["latitude"] == latitude.value
    ensures longitude.Some? ==> r["longitude"] == longitude.value
    ensures forall k :: k in params && (k != "latitude" || latitude.None?) && (k != "longitude" || longitude.None?) ==> r[k] == params[k]
  {
    var withLatitude := if latitude.Some? then params["latitude" := latitude.value] else params;
    if longitude.Some? then withLatitude["longitude" := longitude.value] else withLatitude
  }

  /** The tail of `startNewRequest`: clear the collection, fetch, register the
      job and answer with the grouped collection. A rejected fetch escapes
      before the job is registered, and the request is left unanswered. */
  function FetchAndServe(s: ServerState, io: StartIo): (h: Handled)
    requires "latitude" in s.params && "longitude" in s.params
    ensures io.fetched.FetchFailed? ==>
      h == Handled(s.(store := DeleteAllDatapoints(s.store, io.deleteSucceeded)), Unanswered)
    ensures io.fetched.Fetched? ==>
      h == Serve(s.(store := DeleteAllDatapoints(s.store, io.deleteSucceeded)), io.fetched.observation)
  {
    var s3 := s.(store := DeleteAllDatapoints(s.store, io.deleteSucceeded));
    if io.fetched.FetchFailed? then Handled(s3, Unanswered)
    else Serve(s3, io.fetched.observation)
  }

  /** A fetch that resolves: one batch is appended, one job registered, and
      the answer is the grouped collection. */
  function Serve(s: ServerState, obs: Observation): (h: Handled)
    requires "latitude" in s.params && "longitude" in s.params
    ensures h.state == s.(store := s.store + NewBatch(s.params["latitude"], s.params["longitude"], obs), cronJobs := s.cronJobs + 1)
    ensures h.response == Json(ReturnAllData(h.state.store))
  {
    Answer(StartFetchingCronjob(FetchNewData(s, Fetched(obs)).value))
  }

  /** The session's answer: the grouped collection, state unchanged. */
  function Answer(s: ServerState): (h: Handled)
    ensures h.state == s
    ensures h.response == Json(ReturnAllData(s.store))
  {
    Handled(s, Json(ReturnAllData(s.store)))
  }

  /** The `/weather` route: the first request sets `running` and starts a
      session; every later one answers with the stored data. */
  function HandleWeather(s: ServerState, q: Query, io: StartIo): (h: Handled)
    requires Inv(s)
    ensures Inv(h.state)
    ensures h.state.running
  {
    if !s.running then StartNewRequest(s.(running := true), q, io)
    else Answer(s)
  }

  /** A firing of the refresh job: each registered job fetches and, once the
      fetch has succeeded, emits `NewDataAvailable`; a rejected fetch is
      caught by the scheduler and the firing is skipped. */
  function CronTick(s: ServerState, fetched: FetchResult): (r: ServerState)
    requires Inv(s)
    ensures Inv(r)
    ensures r.running == s.running && r.params == s.params && r.cronJobs == s.cronJobs
  {
    if s.cronJobs == 0 then s
    else
      match FetchNewData(s, fetched)
      case None => s
      case Some(s') => AlertClient(s')
  }

  // ---------------------------------------------------------------------
  // Runs of the process.
  // ---------------------------------------------------------------------

  datatype Event =
    | WeatherRequest(query: Query, io: StartIo)
    | CronFire(fetched: FetchResult)

  function Step(s: ServerState, e: Event): (r: ServerState)
    requires Inv(s)
    ensures Inv(r)
  {
    match e
    case WeatherRequest(q, io) => HandleWeather(s, q, io).state
    case CronFire(fetched) => CronTick(s, fetched)
  }

  /** The state after handling the events in order. */
  function Run(s: ServerState, evs: seq<Event>): (r: ServerState)
    requires Inv(s)
    ensures Inv(r)
    decreases |evs|
  {
    if |evs| == 0 then s else Run(Step(s, evs[0]), evs[1..])
  }

  /** How many of the events reach `startNewRequest`. */
  function Starts(s: ServerState, evs: seq<Event>): nat
    requires Inv(s)
    decreases |evs|
  {
    if |evs| == 0 then 0
    else (if evs[0].WeatherRequest? && !s.running then 1 else 0) + Starts(Step(s, evs[0]), evs[1..])
  }

  /** Job firings whose fetch succeeded. */
  function SuccessfulFires(evs: seq<Event>): nat {
    if |evs| == 0 then 0
    else (if evs[0].CronFire? && evs[0].fetched.Fetched? then 1 else 0) + SuccessfulFires(evs[1..])
  }

  /** Every record has one of the allowed parameters. */
  ghost predicate AllAllowed(store: seq<Record>) {
    forall k :: 0 <= k < |store| ==> store[k].parameter in AllowedWeatherParameters
  }

  // ---------------------------------------------------------------------
  // Properties of the gateway.
  // ---------------------------------------------------------------------

  /** Once set, `running` is never cleared. */
  lemma {:induction false} RunningStays(s: ServerState, evs: seq<Event>)
    requires Inv(s) && s.running
    ensures Run(s, evs).running
    decreases |evs|
  {
    if |evs| > 0 {
      RunningStays(Step(s, evs[0]), evs[1..]);
    }
  }

  /** `startNewRequest` runs at most once in the life of the process, and not
      at all once `running` is set. */
  lemma {:induction false} StartsAtMostOnce(s: ServerState, evs: seq<Event>)
    requires Inv(s)
    ensures Starts(s, evs) <= (if s.running then 0 else 1)
    decreases |evs|
  {
    if |evs| > 0 {
      var s' := Step(s, evs[0]);
      StartsAtMostOnce(s', evs[1..]);
      if evs[0].WeatherRequest? {
        assert s'.running;
      }
    }
  }

  lemma BootStartsAtMostOnce(persisted: seq<Record>, deleteSucceeded: bool, evs: seq<Event>)
    ensures Starts(Boot(persisted, deleteSucceeded), evs) <= 1
  {
    StartsAtMostOnce(Boot(persisted, deleteSucceeded), evs);
  }

  /** While a session runs, every request is answered with the grouped
      collection and changes nothing, whatever its coordinates. */
  lemma RunningAnswersFromStore(s: ServerState, q: Query, io: StartIo)
    requires Inv(s) && s.running
    ensures HandleWeather(s, q, io) == Handled(s, Json(ReturnAllData(s.store)))
  {
  }

  /** A first request missing either coordinate is refused with status 500;
      the collection, the jobs and the emissions are untouched, yet `running`
      is now set and the coordinate that was present has been recorded. */
  lemma MissingCoordinateRefused(s: ServerState, q: Query, io: StartIo)
    requires Inv(s) && !s.running
    requires QueryArg(q, "latitude").None? || QueryArg(q, "longitude").None?
    ensures var h := HandleWeather(s, q, io);
      && h.response == Status500(MissingCoordinates)
      && h.state.running
      && h.state.store == s.store
      && h.state.cronJobs == s.cronJobs == 0
      && h.state.broadcasts == s.broadcasts
      && (QueryArg(q, "latitude").Some? ==> h.state.params["latitude"] == q["latitude"])
      && (QueryArg(q, "longitude").Some? ==> h.state.params["longitude"] == q["longitude"])
      && (forall k :: k in h.state.params <==> k in s.params || (k in {"latitude", "longitude"} && QueryArg(q, k).Some?))
      && (forall k :: k in s.params && (k !in {"latitude", "longitude"} || QueryArg(q, k).None?) ==>
            h.state.params[k] == s.params[k])
  {
  }

  /** The "No parameters provided" refusal never happens: `weather` has just
      been set, so `params` is never empty at that check. */
  lemma NoParametersUnreachable(s: ServerState, q: Query, io: StartIo)
    requires Inv(s)
    ensures HandleWeather(s, q, io).response != Status500(NoParameters)
  {
    if !s.running {
      var latitude := QueryArg(q, "latitude");
      var longitude := QueryArg(q, "longitude");
      if latitude.Some? && longitude.Some? {
        var h := HandleWeather(s, q, io);
        assert "weather" in h.state.params;
      }
    }
  }

  /** The first request with both coordinates, when the delete and the fetch
      succeed: the collection holds exactly one record per allowed parameter,
      all sharing the observation's time and the request's coordinates; one
      job is registered; the answer has one single-point data set per allowed
      parameter. The batch's records share one datetime, so the order of the
      data sets is the model's order among equal datetimes, here that of
      `allowedWeatherParameters`; `StartAnswerAnyOrder` states what holds for
      every order the database may choose. */
  lemma SuccessfulStart(s: ServerState, q: Query, io: StartIo)
    requires Inv(s) && !s.running
    requires QueryArg(q, "latitude").Some? && QueryArg(q, "longitude").Some?
    requires io.deleteSucceeded && io.fetched.Fetched?
    ensures var h := HandleWeather(s, q, io);
      var obs := io.fetched.observation;
      && h.state.running
      && h.state.cronJobs == 1
      && h.state.broadcasts == s.broadcasts
      && RecordParams(h.state.store) == AllowedWeatherParameters
      && (forall k :: 0 <= k < |h.state.store| ==>
            && h.state.store[k].datetime == obs.time
            && h.state.store[k].latitude == q["latitude"]
            && h.state.store[k].longitude == q["longitude"])
      && h.response == Json(SingleReadings(obs))
  {
    var obs := io.fetched.observation;
    StartStoresOneBatch(s, q, io);
    ReadOfBatch(q["latitude"], q["longitude"], obs);
  }

  /** One single-point data set per allowed parameter, in order. */
  function SingleReadings(obs: Observation): seq<DataSet> {
    seq(|AllowedWeatherParameters|, i requires 0 <= i < |AllowedWeatherParameters| =>
      DataSet(AllowedWeatherParameters[i], [DataPoint(obs.time, Lookup(obs.current, AllowedWeatherParameters[i]))]))
  }

  lemma StartStoresOneBatch(s: ServerState, q: Query, io: StartIo)
    requires Inv(s) && !s.running
    requires QueryArg(q, "latitude").Some? && QueryArg(q, "longitude").Some?
    requires io.deleteSucceeded && io.fetched.Fetched?
    ensures var h := HandleWeather(s, q, io);
      && h.state.store == NewBatch(q["latitude"], q["longitude"], io.fetched.observation)
      && h.state.cronJobs == 1
      && h.state.broadcasts == s.broadcasts
      && h.response == Json(ReturnAllData(h.state.store))
  {
    var lat, lon := q["latitude"], q["longitude"];
    assert QueryArg(q, "latitude") == Some(lat) && QueryArg(q, "longitude") == Some(lon);
    assert [] + NewBatch(lat, lon, io.fetched.observation) == NewBatch(lat, lon, io.fetched.observation);
  }

  /** Reading back a single batch gives one single-point data set per
      allowed parameter. */
  lemma ReadOfBatch(latitude: string, longitude: string, obs: Observation)
    ensures ReturnAllData(NewBatch(latitude, longitude, obs)) == SingleReadings(obs)
  {
    var b := NewBatch(latitude, longitude, obs);
    BatchSorted(b, obs.time);
    SortSortedIsIdentity(b);
    GroupOfBatch(b, obs);
  }

  /** Records carrying the allowed parameters in order, all at the
      observation's time with its values, group into one single-point data
      set per allowed parameter. */
  lemma GroupOfBatch(b: seq<Record>, obs: Observation)
    requires RecordParams(b) == AllowedWeatherParameters
    requires forall i :: 0 <= i < |b| ==>
      b[i].datetime == obs.time && b[i].value == Lookup(obs.current, b[i].parameter)
    ensures GroupByParameter(b) == SingleReadings(obs)
  {
    AllowedDistinct();
    GroupDistinctParameters(b);
    OneSetPerRecord(b, obs, GroupByParameter(b));
  }

  /** One single-point data set per batch record, in record order, is the
      answer `SingleReadings` describes. */
  lemma OneSetPerRecord(b: seq<Record>, obs: Observation, g: seq<DataSet>)
    requires RecordParams(b) == AllowedWeatherParameters
    requires forall i :: 0 <= i < |b| ==>
      b[i].datetime == obs.time && b[i].value == Lookup(obs.current, b[i].parameter)
    requires |g| == |b|
    requires forall k :: 0 <= k < |b| ==> g[k] == DataSet(b[k].parameter, [ToPoint(b[k])])
    ensures g == SingleReadings(obs)
  {
    var single := SingleReadings(obs);
    forall i | 0 <= i < |g|
      ensures g[i] == single[i]
    {
      assert b[i].parameter == RecordParams(b)[i];
    }
  }

  /** Whatever order the database reads a batch in, the answer names each
      allowed parameter once and nothing else, and each data set is that
      parameter's one reading at the observation's time. */
  lemma GroupAnyOrder(b: seq<Record>, obs: Observation, read: seq<Record>)
    requires RecordParams(b) == AllowedWeatherParameters
    requires forall i :: 0 <= i < |b| ==>
      b[i].datetime == obs.time && b[i].value == Lookup(obs.current, b[i].parameter)
    requires multiset(read) == multiset(b)
    ensures var r := GroupByParameter(read);
      && Distinct(ParamNames(r))
      && (forall p :: p in ParamNames(r) <==> p in AllowedWeatherParameters)
      && (forall i :: 0 <= i < |r| ==> r[i].dataset == [DataPoint(obs.time, Lookup(obs.current, r[i].param))])
  {
    var r := GroupByParameter(read);
    AllowedDistinct();
    NamesOfGrouping(read);
    ParamsDistinct(read);
    forall p
      ensures p in ParamNames(r) <==> p in AllowedWeatherParameters
    {
      ParamsOccur(read, p);
      CountPermutation(read, b, p);
      CountDistinct(b, p);
    }
    forall i | 0 <= i < |r|
      ensures r[i].dataset == [DataPoint(obs.time, Lookup(obs.current, r[i].param))]
    {
      var p := r[i].param;
      assert p in ParamNames(r);
      var k :| 0 <= k < |b| && RecordParams(b)[k] == p;
      PointsOfDistinct(b, k);
      PointsPermutation(read, b, p);
      SingletonMultiset(Points(read, p), ToPoint(b[k]));
    }
  }

  /** A sequence with the multiset of one element is that element alone. */
  lemma SingletonMultiset<T>(s: seq<T>, x: T)
    requires multiset(s) == multiset([x])
    ensures s == [x]
  {
    assert |s| == |multiset(s)| == 1;
    assert s[0] in multiset(s);
  }

  /** The answer to a successful start, for every order the database may read
      the batch in: exactly the allowed parameters, each once, each with the
      observation's reading as its single point. */
  lemma StartAnswerAnyOrder(s: ServerState, q: Query, io: StartIo, read: seq<Record>)
    requires Inv(s) && !s.running
    requires QueryArg(q, "latitude").Some? && QueryArg(q, "longitude").Some?
    requires io.deleteSucceeded && io.fetched.Fetched?
    requires multiset(read) == multiset(HandleWeather(s, q, io).state.store)
    ensures var r := GroupByParameter(read); var obs := io.fetched.observation;
      && Distinct(ParamNames(r))
      && (forall p :: p in ParamNames(r) <==> p in AllowedWeatherParameters)
      && (forall i :: 0 <= i < |r| ==> r[i].dataset == [DataPoint(obs.time, Lookup(obs.current, r[i].param))])
  {
    StartStoresOneBatch(s, q, io);
    GroupAnyOrder(NewBatch(q["latitude"], q["longitude"], io.fetched.observation), io.fetched.observation, read);
  }

  /** Records sharing one datetime are in datetime order. */
  lemma BatchSorted(b: seq<Record>, time: string)
    requires forall k :: 0 <= k < |b| ==> b[k].datetime == time
    ensures SortedByDatetime(b)
  {
    LeReflexive(time);
  }

  /** A first request whose fetch rejects: `running` is set and the collection
      cleared, but no job is registered and the request is never answered. */
  lemma FailedStartFetch(s: ServerState, q: Query, io: StartIo)
    requires Inv(s) && !s.running
    requires QueryArg(q, "latitude").Some? && QueryArg(q, "longitude").Some?
    requires io.fetched.FetchFailed?
    ensures var h := HandleWeather(s, q, io);
      && h.response == Unanswered
      && h.state.running
      && h.state.cronJobs == 0
      && h.state.store == DeleteAllDatapoints(s.store, io.deleteSucceeded)
  {
  }

  /** One firing with a registered job and a successful fetch appends one
      batch (a record per allowed parameter) and emits exactly once; a
      rejected fetch, or no job at all, leaves everything as it was. */
  lemma TickEffect(s: ServerState, fetched: FetchResult)
    requires Inv(s)
    ensures var r := CronTick(s, fetched);
      if s.cronJobs == 1 && fetched.Fetched? then
        && r.store == s.store + NewBatch(s.params["latitude"], s.params["longitude"], fetched.observation)
        && r.broadcasts == s.broadcasts + 1
      else
        r == s
  {
  }

  /** Over any run of a started session, each allowed parameter gains one
      record per successful firing, other parameters gain none, and there is
      exactly one emission per successful firing. */
  lemma {:induction false} CountsAfterEvents(s: ServerState, evs: seq<Event>, p: string)
    requires Inv(s) && s.running && s.cronJobs == 1
    ensures var r := Run(s, evs);
      && CountParam(r.store, p) == CountParam(s.store, p)
           + (if p in AllowedWeatherParameters then SuccessfulFires(evs) else 0)
      && r.broadcasts == s.broadcasts + SuccessfulFires(evs)
    decreases |evs|
  {
    if |evs| > 0 {
      var s' := Step(s, evs[0]);
      CountsAfterEvents(s', evs[1..], p);
      if evs[0].CronFire? && evs[0].fetched.Fetched? {
        var b := NewBatch(s.params["latitude"], s.params["longitude"], evs[0].fetched.observation);
        CountAppend(s.store, b, p);
        BatchCount(b, p);
      }
    }
  }

  /** A batch holds one record of each allowed parameter and none of others. */
  lemma BatchCount(b: seq<Record>, p: string)
    requires RecordParams(b) == AllowedWeatherParameters
    ensures CountParam(b, p) == if p in AllowedWeatherParameters then 1 else 0
  {
    AllowedDistinct();
    CountDistinct(b, p);
  }

  /** A session whose start failed never gets a job: its collection and its
      emissions never change again. */
  lemma {:induction false} StalledSessionFrozen(s: ServerState, evs: seq<Event>)
    requires Inv(s) && s.running && s.cronJobs == 0
    ensures Run(s, evs).store == s.store && Run(s, evs).broadcasts == s.broadcasts
    decreases |evs|
  {
    if |evs| > 0 {
      StalledSessionFrozen(Step(s, evs[0]), evs[1..]);
    }
  }

  /** From boot, after a successful first request and any further events,
      every allowed parameter has one record more than there were successful
      firings, and nothing else is stored. */
  lemma RecordsPerParameter(persisted: seq<Record>, q: Query, io: StartIo, evs: seq<Event>)
    requires QueryArg(q, "latitude").Some? && QueryArg(q, "longitude").Some?
    requires io.deleteSucceeded && io.fetched.Fetched?
    ensures var s := HandleWeather(Boot(persisted, false), q, io).state;
      var r := Run(s, evs);
      && (forall p :: p in AllowedWeatherParameters ==> CountParam(r.store, p) == SuccessfulFires(evs) + 1)
      && |r.store| == |AllowedWeatherParameters| * (SuccessfulFires(evs) + 1)
      && AllAllowed(r.store)
      && r.broadcasts == SuccessfulFires(evs)
  {
    var s := HandleWeather(Boot(persisted, false), q, io).state;
    StartedFromBoot(persisted, q, io);
    RecordsAfterStart(s, evs);
  }

  /** A successful start from boot leaves a running session with its one job,
      no broadcast and exactly one batch. */
  lemma StartedFromBoot(persisted: seq<Record>, q: Query, io: StartIo)
    requires QueryArg(q, "latitude").Some? && QueryArg(q, "longitude").Some?
    requires io.deleteSucceeded && io.fetched.Fetched?
    ensures var s := HandleWeather(Boot(persisted, false), q, io).state;
      && Inv(s) && s.running && s.cronJobs == 1 && s.broadcasts == 0
      && RecordParams(s.store) == AllowedWeatherParameters
  {
    StartStoresOneBatch(Boot(persisted, false), q, io);
  }

  lemma RecordsAfterStart(s: ServerState, evs: seq<Event>)
    requires Inv(s) && s.running && s.cronJobs == 1
    requires RecordParams(s.store) == AllowedWeatherParameters
    ensures var r := Run(s, evs);
      && (forall p :: p in AllowedWeatherParameters ==> CountParam(r.store, p) == SuccessfulFires(evs) + 1)
      && |r.store| == |AllowedWeatherParameters| * (SuccessfulFires(evs) + 1)
      && AllAllowed(r.store)
      && r.broadcasts == s.broadcasts + SuccessfulFires(evs)
  {
    var r := Run(s, evs);
    forall p | p in AllowedWeatherParameters
      ensures CountParam(r.store, p) == SuccessfulFires(evs) + 1
    {
      CountsAfterEvents(s, evs, p);
      BatchCount(s.store, p);
    }
    CountsAfterEvents(s, evs, "");
    forall k | 0 <= k < |s.store|
      ensures s.store[k].parameter in AllowedWeatherParameters
    {
      assert s.store[k].parameter == RecordParams(s.store)[k];
    }
    StoreGrowsByBatches(s, evs);
  }

  /** What a viewer re-querying after any run of a started session receives
      (requests then answer with the grouped collection): a data set for
      exactly the allowed parameters, each with one point more than there
      were successful firings. */
  lemma AnswerAfterStart(s: ServerState, evs: seq<Event>)
    requires Inv(s) && s.running && s.cronJobs == 1
    requires RecordParams(s.store) == AllowedWeatherParameters
    ensures var d := ReturnAllData(Run(s, evs).store);
      && (forall p :: p in ParamNames(d) <==> p in AllowedWeatherParameters)
      && (forall i :: 0 <= i < |d| ==> |d[i].dataset| == SuccessfulFires(evs) + 1)
  {
    RecordsAfterStart(s, evs);
    AnswerOfCounts(Run(s, evs).store, SuccessfulFires(evs) + 1);
  }

  /** A collection of allowed parameters holding `c > 0` records of each is
      answered with exactly the allowed parameters, `c` points apiece. */
  lemma AnswerOfCounts(store: seq<Record>, c: nat)
    requires AllAllowed(store) && c > 0
    requires forall p :: p in AllowedWeatherParameters ==> CountParam(store, p) == c
    ensures var d := ReturnAllData(store);
      && (forall p :: p in ParamNames(d) <==> p in AllowedWeatherParameters)
      && (forall i :: 0 <= i < |d| ==> |d[i].dataset| == c)
  {
    AllowedAnswered(store);
    AnsweredAllowed(store);
  }

  /** Every allowed parameter with records is named in the answer. */
  lemma AllowedAnswered(store: seq<Record>)
    requires forall p :: p in AllowedWeatherParameters ==> CountParam(store, p) > 0
    ensures forall p :: p in AllowedWeatherParameters ==> p in ParamNames(ReturnAllData(store))
  {
    forall p | p in AllowedWeatherParameters
      ensures p in ParamNames(ReturnAllData(store))
    {
      ParamsOccur(store, p);
      var k :| 0 <= k < |store| && store[k].parameter == p;
    }
  }

  /** The answer for a collection of allowed parameters names only allowed
      parameters. */
  lemma AnsweredAllowed(store: seq<Record>)
    requires AllAllowed(store)
    ensures forall i :: 0 <= i < |ReturnAllData(store)| ==> ReturnAllData(store)[i].param in AllowedWeatherParameters
  {
    var d := ReturnAllData(store);
    forall i | 0 <= i < |d|
      ensures d[i].param in AllowedWeatherParameters
    {
      CountedIsAllowed(store, d[i].param);
    }
  }

  lemma {:induction false} CountedIsAllowed(store: seq<Record>, p: string)
    requires AllAllowed(store) && CountParam(store, p) > 0
    ensures p in AllowedWeatherParameters
  {
    var n := |store| - 1;
    if store[n].parameter != p {
      CountedIsAllowed(store[..n], p);
    }
  }

  /** In a started session the collection is the start's records followed by
      one full batch per successful firing. */
  lemma {:induction false} StoreGrowsByBatches(s: ServerState, evs: seq<Event>)
    requires Inv(s) && s.running && s.cronJobs == 1
    requires AllAllowed(s.store)
    ensures AllAllowed(Run(s, evs).store)
    ensures |Run(s, evs).store| == |s.store| + |AllowedWeatherParameters| * SuccessfulFires(evs)
    decreases |evs|
  {
    if |evs| > 0 {
      var s' := Step(s, evs[0]);
      if evs[0].CronFire? && evs[0].fetched.Fetched? {
        var b := NewBatch(s.params["latitude"], s.params["longitude"], evs[0].fetched.observation);
        assert s'.store == s.store + b;
        forall k | 0 <= k < |b|
          ensures b[k].parameter in AllowedWeatherParameters
        {
          assert b[k].parameter == RecordParams(b)[k];
        }
      }
      StoreGrowsByBatches(s', evs[1..]);
    }
  }
}
