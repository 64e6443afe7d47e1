# Weather dashboard core in Dafny

A model of the weather dashboard's server gateway and its observation store,
and of the client's chart label and parameter state.

- **Server.** The `/weather` route serves either the first request of a
  session or a later one. The first request reads the coordinates and sets
  the process parameters. It then clears the collection, fetches the current
  observation for the four allowed parameters and registers the refresh job
  (cron minutes 2, 17, 32 and 47). Finally it answers with the grouped
  collection. Every later request answers straight from the collection. Each
  firing of the refresh job appends one record per allowed parameter and
  emits `NewDataAvailable`.
- **Reading the collection.** `returnAllData` reads the collection in
  datetime order. It groups the records by parameter into an insertion-ordered
  object and returns that object's entries as `{ param, dataset }` data sets.
- **Client.** `formatLabel` turns parameter names into chart labels. The
  chart's filter keeps the data sets of the selected parameters. `updateParams`
  spreads a partial parameter record over the previous one.

The process state is a `Server.ServerState` record. The route is a pure
transition, `Server.HandleWeather`, and so is a firing of the job,
`Server.CronTick`. Events carry the outcome of all I/O:

- whether `deleteMany` succeeded;
- the fetched observation or a rejection.

The store is a sequence of records. `Store.SortByDatetime` stands for the
database's `.sort("datetime")`. The grouping is proved to agree with independent
reference definitions, `Grouping.Params` and `Grouping.Points`:

- the parameters in order of first occurrence;
- the points of each parameter in record order.

Modules:

| module | file | models |
|---|---|---|
| Options | options.dfy | absent values |
| Strings | strings.dfy | `Array.prototype.join`, code-point string order |
| Datapoint | datapoint.dfy | `Datapoint` schema, answer shapes, allowed parameters |
| Store | store.dfy | `deleteAllDatapoints`, the datetime sort, per-parameter counts |
| Grouping | grouping.dfy | the reduce and `Object.entries` of `returnAllData` |
| Schedule | schedule.dfy | `getMinutesUntilNext15`, the cron expression |
| Server | server.dfy | the route, `startNewRequest`, `fetchNewData`, the job, `alertClient` |
| LineChart | line_chart.dfy | `formatLabel`, the parameter filter |
| LabelExamples | label_examples.dfy | `formatLabel` on the four parameter names |
| WeatherContext | weather_context.dfy | `defaultParams`, `updateParams` |
| Dashboard | dashboard.dfy | client behaviour against the server's answer |

## Model

| member | source | states |
|---|---|---|
| Datapoint.AllowedDistinct | portfolio-server/src/server.ts:44-49 | The four allowed parameter names are pairwise different. |
| Store.DeleteAllDatapoints | portfolio-server/src/server.ts:182-192 | A successful delete leaves the collection empty. A failed one is caught and leaves it as it was. |
| Store.Insert | portfolio-server/src/server.ts:146 | Inserting into a datetime-sorted collection keeps it sorted. The result holds exactly the old records plus the new one (multiset equality, one longer). |
| Store.SortByDatetime | portfolio-server/src/server.ts:146 | The read is in non-decreasing datetime order and is a permutation of the collection. |
| Store.SortSortedIsIdentity | portfolio-server/src/server.ts:146 | Reading a collection that is already in datetime order returns it unchanged. |
| Store.InsertAfterAll | portfolio-server/src/server.ts:146 | A record no earlier than every stored one is placed last. |
| Store.CountAppend | portfolio-server/src/server.ts:113-123 | The per-parameter count of two concatenated collections is the sum of their counts. |
| Store.CountPermutation | portfolio-server/src/server.ts:146 | Reordering the collection does not change any parameter's count. |
| Strings.Join | portfolio-client/src/components/LineChart.tsx:30 | Joining no parts gives "". Joining one part gives that part. |
| Strings.JoinSnoc | portfolio-client/src/components/LineChart.tsx:30 | Joining one more part appends the separator and that part. |
| Strings.JoinAvoids | portfolio-client/src/components/LineChart.tsx:30 | A character in no part and not in the separator is not in the result. |
| Strings.LeReflexive | portfolio-server/src/server.ts:146 | The datetime order is reflexive. |
| Strings.LeTotal | portfolio-server/src/server.ts:146 | Any two datetimes are comparable. |
| Strings.LeTransitive | portfolio-server/src/server.ts:146 | The datetime order is transitive. |
| Strings.LeAntisymmetric | portfolio-server/src/server.ts:146 | Strings ordered both ways are equal. |
| Grouping.AddRecord | portfolio-server/src/server.ts:151-160 | One reduce step: a new parameter becomes the last key with the one-point array, a known one keeps the key order and gets the point pushed at the end. Every other key's array is untouched, and well-formedness is kept. |
| Grouping.Entries | portfolio-server/src/server.ts:164-169 | One data set per key, in key order, each holding that key's array. Names are distinct and every key appears. |
| Grouping.GroupRecords | portfolio-server/src/server.ts:150-162 | The reduce builds an object whose keys are distinct and come in order of first occurrence. Each key's array is exactly that parameter's points in read order. |
| Grouping.GroupByParameter | portfolio-server/src/server.ts:150-169 | There is one data set per parameter, in first-occurrence order. Each data set holds that parameter's points. |
| Grouping.ReturnAllData | portfolio-server/src/server.ts:145-172 | The answer names each parameter once. Every stored record's parameter appears. Each data set holds as many points as the collection has records of that parameter, and never zero. The points add up to the collection's size. Each data set's keys are in datetime order. |
| Grouping.ReadContents | portfolio-server/src/server.ts:145-169 | The answer's names are the sorted read's parameters in first-occurrence order. Each data set is exactly that parameter's points in read order, and as a multiset equals the parameter's points in the collection. |
| Grouping.ReadPlacesEveryRecord | portfolio-server/src/server.ts:145-169 | Every stored record's point lies in the data set named by its parameter. |
| Grouping.PlacesEveryRecord | portfolio-server/src/server.ts:150-169 | Grouping any reordering of the collection places every record's point in its parameter's data set. |
| Grouping.PointsAppend | portfolio-server/src/server.ts:155-158 | The points of two concatenated collections are the first's points followed by the second's. |
| Grouping.PointsPermutation | portfolio-server/src/server.ts:146-158 | Reordering the collection keeps each parameter's points as a multiset. |
| Grouping.PointsWithout | portfolio-server/src/server.ts:155-158 | Removing one record removes its point from its own parameter's points and nothing from any other's. |
| Grouping.ReadDistinctAndCounted | portfolio-server/src/server.ts:145-169 | After the sorted read, names are distinct, each data set's length is that parameter's count, and keys are sorted. |
| Grouping.ReadCovers | portfolio-server/src/server.ts:145-169 | After the sorted read, every record's parameter is among the answer's names. |
| Grouping.ParamsOfPermutation | portfolio-server/src/server.ts:146-154 | Reordering the records keeps every record's parameter among the first-occurrence parameters. |
| Grouping.ParamsDistinct | portfolio-server/src/server.ts:152-154 | The first-occurrence parameter list has no repeats. |
| Grouping.ParamsOccur | portfolio-server/src/server.ts:152-154 | A parameter is listed exactly when some record carries it, which is exactly when its count is positive. |
| Grouping.ParamsPrefix | portfolio-server/src/server.ts:150-162 | Reading more records only appends keys, so earlier keys keep their positions. |
| Grouping.PointsCount | portfolio-server/src/server.ts:155-158 | A parameter has exactly as many points as records. |
| Grouping.PointsFrom | portfolio-server/src/server.ts:155-158 | Every point comes from a record of that parameter. |
| Grouping.PointsContain | portfolio-server/src/server.ts:155-158 | Every record's point is in its parameter's points. |
| Grouping.PointsSorted | portfolio-server/src/server.ts:146-158 | Points taken from a datetime-sorted read have sorted keys. |
| Grouping.GroupDistinctParameters | portfolio-server/src/server.ts:150-169 | Records with pairwise different parameters each become a one-point data set, in record order. |
| Grouping.ParamsOfDistinct | portfolio-server/src/server.ts:152-154 | With pairwise different parameters, the key list is the records' parameters in order. |
| Grouping.PointsOfDistinct | portfolio-server/src/server.ts:155-158 | With pairwise different parameters, each parameter has exactly its one record's point. |
| Grouping.CountDistinct | portfolio-server/src/server.ts:113-123 | With pairwise different parameters, every listed parameter counts once and every other one counts zero. |
| Grouping.AbsentNoPoints | portfolio-server/src/server.ts:152-154 | A parameter never seen has no points. |
| Grouping.RecordInOwnGroup | portfolio-server/src/server.ts:150-169 | Every record's point lies in the data set named by its parameter, and no two data sets share a name. |
| Grouping.NoEmptyGroup | portfolio-server/src/server.ts:152-158 | No data set is empty. |
| Grouping.GroupTotal | portfolio-server/src/server.ts:150-169 | Grouping neither loses nor duplicates a point: the data set sizes add up to the number of records. |
| Grouping.TotalIsSumOfCounts | portfolio-server/src/server.ts:164-169 | The total over the entries is the sum of the per-parameter counts. |
| Grouping.SumCountsSnoc | portfolio-server/src/server.ts:150-162 | One more record raises the count sum by one exactly when its parameter is listed. |
| Grouping.SumCountsCoversAll | portfolio-server/src/server.ts:150-162 | When the listed parameters cover every record, their counts add up to the number of records. |
| Grouping.SumCountsEmpty | portfolio-server/src/server.ts:150-162 | An empty collection counts zero. |
| Schedule.MinutesUntilNext15 | portfolio-server/src/server.ts:127-131 | The wait is 1 to 15 minutes. It ends on a quarter-hour mark, and no earlier minute is one. A current minute already on a mark waits the full 15. |
| Schedule.CronEveryQuarterPlusTwo | portfolio-server/src/server.ts:137 | The job fires at a minute exactly when the minute is two past a quarter hour. |
| Schedule.FiresTwoAfterMark | portfolio-server/src/server.ts:133-141 | The job fires two minutes after the quarter-hour mark the server computes. |
| Schedule.FiresBeforeMark | portfolio-server/src/server.ts:127-141 | Less than two minutes past a quarter hour, the job fires before the announced mark, so the logged delay does not predict the first firing. |
| Server.SetDefaultParams | portfolio-server/src/server.ts:178-180 | `timezone` and `models` are set to the given values. Every other parameter is kept. |
| Server.Boot | portfolio-server/src/server.ts:11-12 | At startup no session runs, no job exists and nothing has been emitted. The defaults are set. A successful startup delete empties the collection. |
| Server.QueryArg | portfolio-server/src/server.ts:69-76 | A query argument counts exactly when it is present and non-empty. |
| Server.Lookup | portfolio-server/src/server.ts:120 | A reading is present exactly when the upstream `current` block has that field. |
| Server.RecordCoordinates | portfolio-server/src/server.ts:69-76 | Each present coordinate is stored under its name. An absent one leaves the previous entry, if any, and every other parameter is kept. |
| Server.NewBatch | portfolio-server/src/server.ts:111-123 | A fetch creates one record per allowed parameter, in order. Each record carries the observation's time, the session's coordinates and that parameter's reading. |
| Server.BatchFor | portfolio-server/src/server.ts:113-123 | Each listed name yields one record with the observation's time, the coordinates and the name's reading. |
| Server.FetchNewData | portfolio-server/src/server.ts:93-125 | A rejected fetch changes nothing and fails. A successful one appends exactly the new batch and changes nothing else. |
| Server.StartFetchingCronjob | portfolio-server/src/server.ts:133-142 | Registering the job adds one job and changes nothing else. |
| Server.AlertClient | portfolio-server/src/server.ts:174-176 | Emitting adds one broadcast and changes nothing else. |
| Server.StartNewRequest | portfolio-server/src/server.ts:68-91 | `running` is kept. Each present coordinate is stored. Missing either one gives the 500 "Latitude and longitude are required" with the collection, jobs and broadcasts untouched. With both, `weather` is set to the allowed names joined by "," and no 500 is answered. |
| Server.FetchAndServe | portfolio-server/src/server.ts:87-90 | The collection is cleared as the delete allows. If the fetch rejects, nothing else happens and the request is left unanswered. Otherwise the rest is `Server.Serve` on the cleared state. |
| Server.Answer | portfolio-server/src/server.ts:145-172 | The answer is the grouped collection, and the state is unchanged. |
| Server.Serve | portfolio-server/src/server.ts:88-90 | After a resolved fetch, exactly one batch for the stored coordinates is appended and one job registered, nothing else changes, and the answer is the grouped collection including that batch. |
| Server.HandleWeather | portfolio-server/src/server.ts:54-61 | The route keeps the invariant: the defaults are set, there is at most one job, and a job exists only in a running session with coordinates. Afterwards the session is running, even when the request was refused. |
| Server.CronTick | portfolio-server/src/server.ts:137-141 | A firing keeps the invariant and never touches `running`, the parameters or the job count. |
| Server.Step | portfolio-server/src/server.ts:54-61 | Every event keeps the invariant. |
| Server.Run | portfolio-server/src/server.ts:54-61 | Every sequence of events keeps the invariant. |
| Server.RunningStays | portfolio-server/src/server.ts:55-56 | Once set, `running` is never cleared. |
| Server.StartsAtMostOnce | portfolio-server/src/server.ts:55-57 | At most one request ever starts a session, and none does once one is running. |
| Server.BootStartsAtMostOnce | portfolio-server/src/server.ts:52-57 | From startup, at most one request in any event sequence runs `startNewRequest`. |
| Server.RunningAnswersFromStore | portfolio-server/src/server.ts:58-60 | While a session runs, a request changes nothing and is answered with the grouped collection. Its query is ignored. |
| Server.MissingCoordinateRefused | portfolio-server/src/server.ts:68-80 | A first request missing either coordinate gets the 500 "Latitude and longitude are required". The session is still marked running. Whichever coordinate was given is stored and nothing else changes: no delete, no fetch, no job. |
| Server.NoParametersUnreachable | portfolio-server/src/server.ts:81-86 | The "No parameters provided" error is never answered, because `params` always has keys at that point. |
| Server.SuccessfulStart | portfolio-server/src/server.ts:68-91 | A first request with both coordinates, a successful delete and a successful fetch has these effects. It leaves a running session with one job and no broadcast. The collection holds one record per allowed parameter, with the observation's time and the request's coordinates. The answer is one single-point data set per allowed parameter, listed in the model's order among equal datetimes, which is that of `allowedWeatherParameters`. |
| Server.StartAnswerAnyOrder | portfolio-server/src/server.ts:145-172 | For every order the database may read the first batch in, the answer names exactly the allowed parameters, each once, and each data set is that parameter's reading at the observation's time. |
| Server.StartStoresOneBatch | portfolio-server/src/server.ts:81-91 | After a successful start, the collection is exactly the first batch, one job is registered and the answer is that collection grouped. |
| Server.ReadOfBatch | portfolio-server/src/server.ts:111-123 | Reading a single batch gives one data set per allowed parameter, holding that parameter's reading, in the model's order among equal datetimes. |
| Server.GroupOfBatch | portfolio-server/src/server.ts:113-123 | Records carrying the allowed names in order, all with the observation's time and readings, group into one single-point data set per allowed name. |
| Server.OneSetPerRecord | portfolio-server/src/server.ts:164-169 | One single-point data set per batch record, in record order, is exactly the per-parameter readings of the observation. |
| Server.GroupAnyOrder | portfolio-server/src/server.ts:146-169 | Any reordering of a batch groups into data sets naming exactly the allowed parameters, each once, each holding that parameter's one reading. |
| Server.SingletonMultiset | portfolio-server/src/server.ts:155-158 | A sequence with the multiset of one element is that element alone. |
| Server.BatchSorted | portfolio-server/src/server.ts:116 | Records sharing one datetime are in datetime order. |
| Server.FailedStartFetch | portfolio-server/src/server.ts:87-90 | When the start's fetch rejects, the request is never answered and no job is registered. The session is still running, and the delete's outcome stands. |
| Server.TickEffect | portfolio-server/src/server.ts:137-141 | A firing whose fetch succeeds appends one batch and emits once. Without a job, or when the fetch fails, nothing changes. |
| Server.CountsAfterEvents | portfolio-server/src/server.ts:113-123 | In a session with its job, each allowed parameter gains one record and one broadcast per successful firing. Other parameters gain nothing. |
| Server.BatchCount | portfolio-server/src/server.ts:113-123 | A batch holds exactly one record of each allowed parameter and none of any other. |
| Server.StalledSessionFrozen | portfolio-server/src/server.ts:87-89 | A running session without a job never changes its collection and never emits. |
| Server.RecordsPerParameter | portfolio-server/src/server.ts:11-141 | After a successful start from boot and any events, each allowed parameter has one record plus one per successful firing. The collection holds only allowed parameters. It has four times that many records, and the broadcasts equal the successful firings. |
| Server.StartedFromBoot | portfolio-server/src/server.ts:68-91 | A successful first request after startup leaves a running session that keeps the invariant, with one job, no broadcast and exactly the allowed parameters' batch. |
| Server.RecordsAfterStart | portfolio-server/src/server.ts:113-141 | From a started session, the per-parameter counts, the total and the broadcasts grow by one batch per successful firing. |
| Server.AnswerAfterStart | portfolio-server/src/server.ts:145-172 | After a start and any events, the answer names exactly the allowed parameters. Each data set has one point per successful firing plus one. |
| Server.AnswerOfCounts | portfolio-server/src/server.ts:145-172 | A collection of allowed parameters with `c > 0` records of each is answered with exactly the allowed parameters, `c` points each. |
| Server.AllowedAnswered | portfolio-server/src/server.ts:150-169 | Every allowed parameter with records is named in the answer. |
| Server.AnsweredAllowed | portfolio-server/src/server.ts:150-169 | A collection of allowed parameters is answered with allowed names only. |
| Server.CountedIsAllowed | portfolio-server/src/server.ts:113-123 | In a collection of allowed parameters, any parameter with records is allowed. |
| Server.StoreGrowsByBatches | portfolio-server/src/server.ts:137-141 | The collection keeps only allowed parameters and grows by exactly four records per successful firing. |
| LineChart.ReplaceUnderscores | portfolio-client/src/components/LineChart.tsx:26 | `replace(/_/g, " ")`: same length, every '_' becomes a space, every other character is kept, and no '_' remains. |
| LineChart.ReplaceFirst | portfolio-client/src/components/LineChart.tsx:26 | A string-pattern `replace`: without an occurrence the string is unchanged; otherwise the first occurrence, and only it, is replaced. |
| LineChart.IndexFrom | portfolio-client/src/components/LineChart.tsx:26 | The result is the first position at or after the start where the pattern occurs. When there is none, the pattern occurs nowhere after the start. |
| LineChart.ReplaceFirstAt | portfolio-client/src/components/LineChart.tsx:26 | A string-pattern `replace` replaces exactly the first occurrence. |
| LineChart.ReplaceFirstAbsent | portfolio-client/src/components/LineChart.tsx:26 | Without an occurrence, `replace` returns the string unchanged. |
| LineChart.LaterOccurrenceSurvives | portfolio-client/src/components/LineChart.tsx:26 | Only the first "2m" is removed: a later occurrence is still present, shifted left. |
| LineChart.RemoveFirstAt | portfolio-client/src/components/LineChart.tsx:26 | If "2m" occurs at a position with no earlier '2', removing it deletes exactly those two characters. |
| LineChart.NoOccurrence | portfolio-client/src/components/LineChart.tsx:26 | A pattern whose first character is absent is never replaced. |
| LineChart.TrimStart | portfolio-client/src/components/LineChart.tsx:26 | The result is a suffix. What was cut is all whitespace, and the result does not start with whitespace. |
| LineChart.TrimEnd | portfolio-client/src/components/LineChart.tsx:26 | The result is a prefix. What was cut is all whitespace, and the result does not end with whitespace. |
| LineChart.Trim | portfolio-client/src/components/LineChart.tsx:26 | The result is the input with whitespace padding removed on both sides, and neither end is whitespace. |
| LineChart.UpperChar | portfolio-client/src/components/LineChart.tsx:27 | ASCII lower-case letters map to their upper-case letter. Every other character is kept. |
| LineChart.Capitalize | portfolio-client/src/components/LineChart.tsx:27 | Only the first character is upper-cased. The length and the rest are kept, and "" stays "". |
| LineChart.CleanParameter | portfolio-client/src/components/LineChart.tsx:25-28 | A cleaned name has no '_', is no longer than the name, and neither starts nor ends with whitespace. |
| LineChart.CleanSteps | portfolio-client/src/components/LineChart.tsx:25-28 | Capitalizing a trimmed string drawn from an underscore-free one keeps it underscore-free, no longer than the name and unpadded. |
| LineChart.CapitalizeKeepsEnds | portfolio-client/src/components/LineChart.tsx:27 | Capitalizing keeps a string without whitespace at either end. |
| LineChart.CutKeepsLater | portfolio-client/src/components/LineChart.tsx:26 | Cutting out an earlier occurrence shifts a later one left by the pattern's length. |
| LineChart.ReplaceFirstDeletes | portfolio-client/src/components/LineChart.tsx:26 | Removing an occurrence introduces no new characters. |
| LineChart.TrimKeeps | portfolio-client/src/components/LineChart.tsx:26 | Trimming introduces no new characters. |
| LineChart.CapitalizeKeepsUnderscoreFree | portfolio-client/src/components/LineChart.tsx:27 | Capitalizing introduces no '_'. |
| LineChart.FormatLabel | portfolio-client/src/components/LineChart.tsx:24-31 | No names give "", one name gives its cleaned form, and a label never contains '_'. |
| LineChart.MapStrings | portfolio-client/src/components/LineChart.tsx:25 | The mapped array has the same length and holds the function's value at each position. |
| LineChart.MapStringsSnoc | portfolio-client/src/components/LineChart.tsx:25 | Mapping one more element appends its image. |
| LineChart.LabelOfOne | portfolio-client/src/components/LineChart.tsx:52 | A data set's label is its parameter's cleaned name. |
| LineChart.LabelSnoc | portfolio-client/src/components/LineChart.tsx:24-31 | One more name appends ", " and its cleaned form to the label. |
| LineChart.FilterSelected | portfolio-client/src/components/LineChart.tsx:91-99 | The shown data sets are a subsequence of the answer, all selected. Each selected data set keeps its multiplicity and each unselected one is dropped. |
| LineChart.ShownIffSelected | portfolio-client/src/components/LineChart.tsx:91-99 | A data set is shown exactly when it is in the answer and its parameter is selected. |
| LabelExamples.CleanStages | portfolio-client/src/components/LineChart.tsx:26-27 | Cleaning is the composition of the four stages: underscores, "2m", trim, capitalize. |
| LabelExamples.TrimOneTrailingSpace | portfolio-client/src/components/LineChart.tsx:26 | Trimming drops a single trailing space from an unpadded string. |
| LabelExamples.CleanPlainName | portfolio-client/src/components/LineChart.tsx:25-28 | A name without '_', '2' or padding is only capitalized. |
| LabelExamples.CleanTemperature | portfolio-client/src/components/LineChart.tsx:25-28 | "temperature_2m" reads "Temperature". |
| LabelExamples.TemperatureSpaced | portfolio-client/src/components/LineChart.tsx:26 | Underscores become spaces in "temperature_2m". |
| LabelExamples.TemperatureRemoved | portfolio-client/src/components/LineChart.tsx:26 | "2m" is removed from "temperature 2m", leaving a trailing space. |
| LabelExamples.TemperatureCapitalized | portfolio-client/src/components/LineChart.tsx:27 | "temperature" capitalizes to "Temperature". |
| LabelExamples.CleanRelativeHumidity | portfolio-client/src/components/LineChart.tsx:25-28 | "relative_humidity_2m" reads "Relative humidity". |
| LabelExamples.HumiditySpaced | portfolio-client/src/components/LineChart.tsx:26 | Underscores become spaces in "relative_humidity_2m". |
| LabelExamples.HumidityRemoved | portfolio-client/src/components/LineChart.tsx:26 | "2m" is removed from "relative humidity 2m". |
| LabelExamples.HumidityCapitalized | portfolio-client/src/components/LineChart.tsx:27 | Only the first word is capitalized. |
| LabelExamples.CleanRain | portfolio-client/src/components/LineChart.tsx:25-28 | "rain" reads "Rain". |
| LabelExamples.RainCapitalized | portfolio-client/src/components/LineChart.tsx:27 | "rain" capitalizes to "Rain". |
| LabelExamples.CleanSnowfall | portfolio-client/src/components/LineChart.tsx:25-28 | "snowfall" reads "Snowfall". |
| LabelExamples.SnowfallCapitalized | portfolio-client/src/components/LineChart.tsx:27 | "snowfall" capitalizes to "Snowfall". |
| LabelExamples.InitialTitle | portfolio-client/src/components/LineChart.tsx:78 | The y-axis title for the selection ["temperature_2m"] is "Temperature". |
| LabelExamples.LabelPair | portfolio-client/src/components/LineChart.tsx:24-31 | Two names are labelled as their cleaned forms joined by ", ". |
| WeatherContext.Spread | portfolio-client/src/contexts/WeatherContext.tsx:28 | The spread has every property of either object. The later object wins where both have one. |
| WeatherContext.ObjectRoundTrip | portfolio-client/src/contexts/WeatherContext.tsx:3-8 | A parameter record survives the trip to a plain object and back. |
| WeatherContext.UpdateParams | portfolio-client/src/contexts/WeatherContext.tsx:27-29 | Each supplied field takes the new value and each absent field keeps the previous one. |
| WeatherContext.UpdateNoChange | portfolio-client/src/contexts/WeatherContext.tsx:27-29 | An empty update changes nothing. |
| WeatherContext.UpdateIdempotent | portfolio-client/src/contexts/WeatherContext.tsx:27-29 | Applying the same update twice equals applying it once. |
| WeatherContext.UpdateLaterWins | portfolio-client/src/contexts/WeatherContext.tsx:27-29 | Two updates in a row equal one update with the later one's fields taking precedence. |
| WeatherContext.UpdateFull | portfolio-client/src/contexts/WeatherContext.tsx:27-29 | An update supplying every field replaces the record. |
| Dashboard.DefaultSelectionAllowed | portfolio-client/src/contexts/WeatherContext.tsx:15-20 | The initial selection names only parameters the server stores, and nothing has been submitted yet. |
| Dashboard.DefaultTitle | portfolio-client/src/contexts/WeatherContext.tsx:15-20 | With the initial parameters the chart's y-axis title is "Temperature". |
| Dashboard.DefaultSelectionShowsTemperature | portfolio-client/src/components/LineChart.tsx:91-99 | Against the answer to a successful start, the initial selection shows only the temperature data set. |
| Dashboard.SkipUnselected | portfolio-client/src/components/LineChart.tsx:91-99 | Appending only unselected data sets shows nothing more. |
| Dashboard.SelectNames | portfolio-client/src/components/LineChart.tsx:93 | A name is kept exactly when it is listed and selected. |
| Dashboard.Build | portfolio-server/src/server.ts:164-169 | There is one data set per name, in order, each holding that name's points. |
| Dashboard.FilterOfGrouping | portfolio-client/src/components/LineChart.tsx:91-99 | Filtering the grouped answer equals grouping only the selected records. The chart shows exactly the selected parameters' full data, in the server's order. |
| Dashboard.FilterBuild | portfolio-client/src/components/LineChart.tsx:91-99 | Filtering per-name data sets keeps exactly the selected names' data sets, in order. |
| Dashboard.FilterBuildStep | portfolio-client/src/components/LineChart.tsx:91-99 | If filtering agrees with selecting names for a prefix, it still agrees after one more name. |
| Dashboard.BuildSnoc | portfolio-server/src/server.ts:164-169 | One more name adds its data set at the end. |
| Dashboard.FilterSnoc | portfolio-client/src/components/LineChart.tsx:91-99 | The filter decides each appended data set on its own. |
| Dashboard.ParamsOfSelected | portfolio-server/src/server.ts:152-154 | The first-seen parameters of the selected records are the selected first-seen parameters, in the same order. |
| Dashboard.PointsOfSelected | portfolio-server/src/server.ts:155-158 | Dropping unselected records leaves every selected parameter's points unchanged. |

## Left out

- **Transport and storage.** Express, CORS, the HTTP server, socket.io
  connection logging and the MongoDB connection are left out. They are
  transport or foreign libraries, so the model keeps only their effect on
  state. The collection is a sequence, and `io.emit` is a broadcast counter.
- **The upstream fetch.** The URL, `URLSearchParams` and response parsing are
  an oracle: `Server.FetchResult` is either an observation or a rejection. A
  non-OK status is not treated specially, following the source. A body
  without `current` counts as a rejection. A `current` without `time` is not
  distinguished from one with it.
- **Unawaited creates.** `Datapoint.create` is not awaited, so writes may land
  after the answer is read. The model applies them before the read. A
  rejected create is not modelled.
- **Wall clock.** `getMinutesUntilNext15` reads the clock, so the current
  minute is a parameter. The job's firing times are events. The computed
  delay is only logged, and the job is scheduled by its cron expression
  alone.
- **Concurrency.** Requests, firings and their awaits are not interleaved:
  each event runs to completion. A rejected fetch inside a firing is caught
  by the scheduler and leaves the state unchanged.
- **Node's unhandled-rejection policy.** The route calls `startNewRequest`
  without `await` or `catch` (server.ts:57), so a rejected fetch at
  server.ts:88 is an unhandled rejection, on which current Node terminates
  the process by default. The model keeps the process running with that
  request unanswered and no job (`Server.FailedStartFetch`,
  `Server.StalledSessionFrozen`); process termination is not modelled.
- **Stored values.** They are JavaScript doubles; `Datapoint.Value` is an
  integer stand-in, since the model only moves values around.
- Store.SortByDatetime: the database's order among records with equal
  datetimes is unspecified, and the four unawaited `Datapoint.create` calls
  (server.ts:114) may land in any order. The model fixes one order: `Insert`
  places a record after the earlier records with the same datetime. So two
  points of one parameter with the same datetime appear in the model's order,
  and parameters first seen at one datetime are listed in the model's order
  too. The four records of a batch share one datetime, so this fixes the order
  of the data sets in `Server.SuccessfulStart` and `Server.ReadOfBatch`; the
  order-free facts that hold for every order are `Server.StartAnswerAnyOrder`
  and `Server.GroupAnyOrder`.
- **`Object.entries` ordering.** `Object.entries` lists integer-like keys
  first. Inherited prototype names such as `constructor` also interfere with
  the `!acc[...]` test. Neither is modelled: parameter names are plain
  strings in first-occurrence order. Every record the program writes carries
  one of the four allowed names, for which this is exact.
- LineChart.UpperChar: upper-cases ASCII letters only. The full Unicode case
  mapping of `toUpperCase` (which can change length, as with 'ß') is left
  out. All parameter names are ASCII.
- **Partial updates.** In a partial record given to `updateParams`, a field
  explicitly set to `undefined` is treated as absent. The spread would copy
  `undefined` instead.
- **Repeated query keys.** A repeated query key becomes an array in Express.
  This is not modelled, since a query is a map from names to strings.
- **Chart rendering.** `formatTitle` (luxon time formatting), the Chart.js
  chart construction, the React hooks and effects, `ChartElement`,
  `WeatherSettings` and `App` are rendering and UI wiring. LineChart.tsx is
  modelled only for `formatLabel` and the filter.
- **Behaviour of server.ts worth knowing.**
  - A missing coordinate is refused only on the first request. The route sets
    `running` before validating, so the refused request still ends the
    start-up, and later requests are answered from the collection without
    validation. This is stated by `Server.MissingCoordinateRefused` and
    `Server.RunningAnswersFromStore`.
  - The "No parameters provided" branch cannot be reached; see
    `Server.NoParametersUnreachable`.
  - Strictly increasing timestamps across firings depend on the upstream
    service, so the model claims only that each data set is sorted by
    datetime.
