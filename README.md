# FetchAndPush: a verified model of the gate-count aggregation job

The job is a watermark-driven batch run. It reads from the datastore the end
of the newest stored bucket. If no closed window exists since then, it stops.
Otherwise it pages through the context broker's `Vehicle` entities observed
since the watermark, 1000 at a time. It folds every event into one run-wide
table keyed by (description, bucket start). It then writes, in a single call,
the records of the buckets that are closed: those beginning strictly before
`now − interval`.

Modules, in dependency order:

- `Wrappers`: `Option`, `Result`, `Outcome`.
- `Entities`: the vehicle event and the `GateCount` record. Only the fields the
  job reads are kept.
- `Description`: the description pattern `Parking: (\S+), Gate: (\S+)` as a
  whole-string parser, proved sound and complete against `Describe`.
- `TimeBucket`: `Truncate` to the interval, the bucket's last second, the
  cutoff and the "no closed window" guard.
- `Aggregation`: the pure specification of the fold: `Step` is one iteration
  of `Aggregate`'s loop and `Fold` is the whole loop. Lemmas cover counting,
  concatenation and first sight.
- `Ports`: the two collaborators.
  - `DataFetcher` is the broker. It holds the broker's vehicles and the offsets
    at which a request fails. It answers a page request as the NGSI-LD query
    asks: at most 1000 vehicles observed at or after the date, from the offset.
  - `DataPersistor` replays the datastore's answers.
  - Both log the calls made to them.
- `Pagination`: which requests a run makes and when it stops.
- `Finalisation`: which buckets are closed and what a correct write contains.
  It lists every closed record exactly once, in an arbitrary order.
- `Usecase`:
  - the `FetchAndPush` class with `Aggregate`, the paging loop
    `FetchAndAggregate` and `Execute`;
  - the finalisation loop `CollectClosed`;
  - the constructor guard `NewFetchAndPush`.
- `Scenarios`: whole runs on concrete collaborators.

Time is an integer number of seconds since Go's zero time, so Go's
`Time.Truncate` is floor to a multiple of the bucket width. The interval is a
positive number of minutes. The Go map of maps is one map keyed by the pair,
held in a `CountMap` object because Go maps are shared by reference.

## Model

| member | source | states |
|---|---|---|
| Description.Parse | internal/core/usecase/fetch_and_push.go:113-125 | a recognised description is exactly `"Parking: " + parking + ", Gate: " + gate` with both tokens non-empty and free of `\s` characters |
| Description.ParseDescribe | internal/core/usecase/fetch_and_push.go:113-125 | every description built from two tokens is recognised, and yields those tokens |
| Description.DescribeInjective | internal/core/usecase/fetch_and_push.go:124-125 | the parking and gate are recovered exactly: different token pairs give different descriptions |
| TimeBucket.Truncate | internal/core/usecase/fetch_and_push.go:117 | the bucket start is a multiple of `interval*60` with `begin <= observedAt < begin + interval*60` |
| TimeBucket.TruncateSameBucket | internal/core/usecase/fetch_and_push.go:117 | every instant of a bucket truncates to that bucket's start |
| TimeBucket.BucketEnd | internal/core/usecase/fetch_and_push.go:139 | `begin + (interval-1) minutes + 59 s` is `begin + interval*60 - 1` |
| TimeBucket.BucketEndInBucket | internal/core/usecase/fetch_and_push.go:138-139 | the end lies in the bucket, and the second after it starts the next bucket |
| TimeBucket.NoClosedWindow | internal/core/usecase/fetch_and_push.go:58-59 | the guard `lastUpdate + 1s` after `now - interval` holds exactly while at most one interval has elapsed since the watermark |
| Aggregation.FirstRecord | internal/core/usecase/fetch_and_push.go:133-141 | the record built for a new key (its properties are stated by `Aggregation.FirstRecordFields`) |
| Aggregation.FirstRecordFields | internal/core/usecase/fetch_and_push.go:133-141 | a new key's record names the event's parking and gate, spans the bucket holding the event (`end - begin = interval*60 - 1`), stores the coordinates swapped and starts at count 0 |
| Aggregation.Step | internal/core/usecase/fetch_and_push.go:119-144 | one iteration of the aggregation loop (its properties are stated by `Aggregation.StepEffect`) |
| Aggregation.StepEffect | internal/core/usecase/fetch_and_push.go:119-144 | an unparseable event leaves the table as it is; a parseable one adds its key if new, counts one more under it and leaves every other record unchanged |
| Aggregation.Fold | internal/core/usecase/fetch_and_push.go:115-145 | the aggregation loop over a page (its properties are stated by the lemmas below) |
| Aggregation.FoldKeys | internal/core/usecase/fetch_and_push.go:115-145 | folding never drops a key and adds at most one key per event |
| Aggregation.FoldConcat | internal/core/usecase/fetch_and_push.go:67-87 | folding pages one after another into the same table equals folding their concatenation |
| Aggregation.CountOfConcat | internal/core/usecase/fetch_and_push.go:115-145 | the number of counted events of a concatenation is the sum over its parts |
| Aggregation.FoldCount | internal/core/usecase/fetch_and_push.go:131-144 | the stored count of every key is the old count plus the number of events with a parseable description equal to the key's and a truncated instant equal to the key's bucket start |
| Aggregation.FoldWellFormed | internal/core/usecase/fetch_and_push.go:127-144 | every record stays under its own description and bucket, with its parking/gate parsed from the description, the bucket's end and a count of at least 1 |
| Aggregation.FoldUntouched | internal/core/usecase/fetch_and_push.go:119-123 | a key no event counts is neither added nor changed |
| Aggregation.FoldSeen | internal/core/usecase/fetch_and_push.go:131-144 | a record already in the table changes only in its count |
| Aggregation.FoldFirstSeen | internal/core/usecase/fetch_and_push.go:131-143 | a key first counted at event i gets that event's parking, gate, swapped coordinates, bucket start and end, and a count equal to its number of events, so the first sight counts as 1 |
| Aggregation.FoldSkipsMalformed | internal/core/usecase/fetch_and_push.go:119-123 | events whose description does not match contribute nothing: folding everything equals folding only the well-described events |
| Aggregation.FreshTable | internal/core/usecase/fetch_and_push.go:67 | a fresh run's table holds exactly the keys counted at least once, each with its number of events |
| Ports.ObservedFrom | internal/infrastructure/ngsi-ld/client.go:53 | the filtered vehicles all have `observedAt >= beginDate` |
| Ports.ObservedFromMembers | internal/infrastructure/ngsi-ld/client.go:53 | a vehicle passes the filter iff it is held by the broker and observed at or after the date |
| Ports.ObservedFromAll | internal/infrastructure/ngsi-ld/client.go:53 | when every vehicle is recent enough the filter keeps all of them in order |
| Ports.Window | internal/infrastructure/ngsi-ld/client.go:52-54 | a page holds at most 1000 vehicles, exactly 1000 when enough remain, else the rest |
| Ports.DataFetcher.FetchData | internal/core/usecase/fetch_and_push.go:14-16 | logs the request and answers with the failure for that offset, or the window of matching vehicles |
| Ports.DataPersistor.GetLastUpdate | internal/core/usecase/fetch_and_push.go:19 | answers the datastore's watermark or its error |
| Ports.DataPersistor.WriteData | internal/core/usecase/fetch_and_push.go:20 | logs the written records and answers the datastore's write result |
| Pagination.FirstOutage | internal/core/usecase/fetch_and_push.go:70-74 | the first failing page in a range: it is in the range, it fails, and no page before it fails |
| Pagination.CallsAt | internal/core/usecase/fetch_and_push.go:66-86 | the k-th request asks for offset `1000*k` |
| Pagination.WindowsCover | internal/core/usecase/fetch_and_push.go:83-86 | page k is full exactly before the last page; the pages so far are the first matches, and with the last page all of them, once and in order |
| Pagination.ThreePages | internal/core/usecase/fetch_and_push.go:66-87 | 2400 matches with no failure: three requests at offsets 0, 1000, 2000 returning 1000, 1000 and 400 vehicles that together are all 2400 |
| Pagination.WholePagesProbe | internal/core/usecase/fetch_and_push.go:83-86 | 2000 matches take three requests, the last answered by an empty page |
| Finalisation.ListingLength | internal/core/usecase/fetch_and_push.go:89-97 | a correct write holds as many records as there are closed buckets |
| Finalisation.ListingMembers | internal/core/usecase/fetch_and_push.go:89-97 | a record is written iff it is the record of a closed bucket |
| Finalisation.ListedNaturalKeysDistinct | internal/core/usecase/fetch_and_push.go:89-97 | in the model, no two written records share parking, gate and bucket start (see "Left out") |
| Finalisation.ClosedBoundary | internal/core/usecase/fetch_and_push.go:93 | a bucket starting at the cutoff is not written and one starting a second earlier is; a bucket is written iff its last second is before `now - 1` |
| Finalisation.ListingsAgree | internal/core/usecase/fetch_and_push.go:91-92 | whatever the map iteration order, two writes of the same table are permutations of each other |
| Finalisation.SingleClosed | internal/core/usecase/fetch_and_push.go:89-97 | with a single closed bucket exactly its record is written |
| Usecase.CollectClosed | internal/core/usecase/fetch_and_push.go:89-97 | the collected records list every record with `begin < cutoff` (strict) exactly once and nothing else |
| Usecase.FetchAndPush.Aggregate | internal/core/usecase/fetch_and_push.go:111-149 | the table is updated in place to the fold of the page, the same table is handed back and no error is reported |
| Usecase.FetchAndPush.FetchAndAggregate | internal/core/usecase/fetch_and_push.go:65-87 | the requests are those at offsets 0, 1000, … up to the short page or the first failure; a failure is reported with its error; without one the table is the fold of every matching vehicle |
| Usecase.FetchAndPush.Execute | internal/core/usecase/fetch_and_push.go:49-108 | a failed watermark read fails the run untouched; if `lastUpdate + 1s` is after the cutoff it succeeds with no request and no write; a fetch failure fails the run before any write; otherwise it makes exactly one write listing the closed records of the fold of all matches and reports the write result |
| Usecase.FetchAndPush.constructor | internal/core/usecase/fetch_and_push.go:41-46 | stores the collaborators and the interval |
| Usecase.NewFetchAndPush | internal/core/usecase/fetch_and_push.go:30-47 | refuses a missing collaborator or an interval `<= 0` with "all parameters must be non-nil", and otherwise builds the job |
| Scenarios.EventsTable | internal/core/usecase/fetch_and_push.go:115-144 | the end-to-end events give two buckets of "Parking: A, Gate: 1", and only the older one, with count 2, is closed |
| Scenarios.EndToEnd | internal/core/usecase/fetch_and_push.go:49-108 | watermark T0, 15 minutes, now T0+20min, events at T0+1s, T0+2min, T0+16min: one request, success, and the single write is `[(A, 1, 45.0, 10.0, T0+1s, T0+15min, 2)]` |
| Scenarios.ThreeRequests | internal/core/usecase/fetch_and_push.go:66-87 | a run over 2400 matches makes exactly the requests at offsets 0, 1000 and 2000 and one write |

## Left out

- The HTTP and JSON clients are not modelled beyond the contracts above. This
  covers request building, the query encoding, headers and response decoding.
  The datastore's bootstrap watermark (persistor/client.go:81) is part of
  `lastUpdate`, which is a parameter of the persistor.
- The broker is assumed to list matches in a stable order. A page request at
  an offset that does not fail returns the 1000-wide window of the vehicles
  observed at or after the date.
- The persistor's `WriteData` reports success on a non-OK status, because it
  wraps a nil error at persistor/client.go:125-127. The model's persistor
  answers a scripted write result, so this is not captured.
- Logging, the logger parameter and its nil check in `NewFetchAndPush`, and
  `context.Context` cancellation are left out; none of them changes the data
  that flows.
- `Execute`'s wall clock is a single `now` argument. The source reads
  `time.Now()` once for the guard and again for each record in the filter; the
  model takes all of these reads to be equal.
- Time has whole seconds. Sub-second precision, time zones and
  `time.Duration` overflow are not modelled.
- Description.Parse: matches the whole description. Go's regexp finds the
  pattern anywhere in the string, leftmost first, so a description with extra
  text around the pattern is rejected by the model but recognised by the source.
- Finalisation.ListedNaturalKeysDistinct: holds for the model only. The source
  keys its table by the raw description (fetch_and_push.go:127, :131) and
  matches without anchoring (:119). So "Parking: A, Gate: 1" and
  "Parking: A, Gate: 1 " (with a trailing space) land under two keys with the
  same parking, gate and bucket start, and the source writes both rows. The
  model skips the second event, because its `Parse` rejects the trailing text.
- Coordinates are copied, never computed with, so they are `real` values
  without floating-point behaviour. Every vehicle of the model carries at
  least two coordinates. The source panics at fetch_and_push.go:136 only on an
  event with fewer than two coordinates whose description parses and whose
  key is new. Such an event with an unparseable description, or with a key
  already in the table, runs fine in the source. The model excludes all of
  these events, not just the ones that panic.
- The source's "can't aggregate" error (fetch_and_push.go:78-81) has no error
  kind in the model. `Aggregate` is proved never to report an error, so that
  branch of `Execute` is dead; the model checks it with `assert false`.
- A page of exactly 1000 vehicles does not stop the loop (fetch_and_push.go:83).
  So when the matches fill whole pages, the code makes one more request, which
  returns empty. See `Pagination.WholePagesProbe`.
- Configuration loading and the process wiring in `cmd/earthquake/main.go` are
  not part of this model.
