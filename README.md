# Fake request service — a Dafny model

This project models the fake data service of the Glimpse client
(`fake/fake-service-request.js`). The service stands in for a Glimpse server
during client development. It generates random request records in three
summary channels, the *local* batch, the *remote* batch and the ever-ticking
*stream*. It stores every generated record in a raw request cache keyed by
record id and publishes processed summaries on the client's event bus. Later
it answers requests for the details of one record from that cache.

The model is split by component:

- `records.dfy` (module `Records`): the raw request record, its request, its
  messages and their payloads, the JSON values a payload parses to, and the
  `Result` and `Option` wrappers.
- `processors.dfy` (module `Processors`): the four processors of
  `requestProcessor`. These are pure functions, and the two summary processors'
  loops are also methods proved equal to them. `requests.summary` hydrates
  every non-empty text payload with a JSON parser passed in as a parameter and
  fails with `MalformedPayload` where the parser throws. `messages.summary`
  keeps the messages that carry indices or an abstract, in order.
- `cache.dfy` (module `Cache`): writing a batch into the cache (a last-wins
  fold over the batch) and the detail lookup. It also holds the lookup as
  written on a plain JavaScript object; see "## Findings".
- `generation.dfy` (module `Generation`): `generateResults`, the walk back in
  time by one random step of 30 to 300 seconds per record, and the size of a
  stream tick.
- `events.dfy` (module `Events`): event payloads, the summary and detail topic
  names, and the payload a batch publishes for a processor.
- `service.dfy` (module `Service`): the class `FakeService`. It holds the event
  budget (`maxEvents`, `leftEvents`), the cache, the log of every emit on the
  bus, and the pending stream timers. Its methods are `batch`, `cacheResults`,
  `publishResults`, the three `generate` callbacks, the stream timer's callback
  and the remote detail lookup. The invariant `Valid()` states that the budget
  spent equals the number of records generated, and that the cache is exactly
  the fold of every record generated so far.

Randomness is passed in as parameters. These are the budget drawn from
[25, 35], the backward steps, the synthesised records (`Drawn`: id, request,
messages) and the stream draw from [0, 100]. Times are integer seconds relative
to "now". Each timer callback is a method that a caller invokes. The event bus
is the `log` field.

Two behaviours one might expect from the service do not hold in its code:

- The stream re-arms its timer after every tick. The budget check
  `leftEvents > 0` runs when the timer fires, not when it is set
  (`StreamTimerFired`).
- The budget is not a hard limit. A stream tick of two records with one event
  left takes `leftEvents` to -1. The local and remote batches charge the budget
  with no check at all, and every history request starts a new remote batch,
  so `leftEvents` can fall further. The model proves only that a stream timer
  firing that runs a tick leaves `leftEvents >= -1`.

## Model

| member | source | states |
|---|---|---|
| Processors.HydrateMessage | fake/fake-service-request.js:62-64 | a message hydrates exactly when its payload is empty or not text, or when the parser accepts its text; a hydrated message differs from the original only in the payload, which becomes the parsed value when the text is non-empty |
| Processors.HydrateMessagesAt | fake/fake-service-request.js:61-65 | the messages of one request hydrate exactly when every payload parses, and message k of the result is message k hydrated |
| Processors.HydrateRequestsAt | fake/fake-service-request.js:60-66 | the requests hydrate exactly when every request's messages hydrate, and request k of the result is request k with its messages hydrated |
| Processors.RequestsOf | fake/fake-service-request.js:57 | mapping records to their `request` keeps the length, and entry i is record i's request |
| Processors.RequestsSummaryHydrates | fake/fake-service-request.js:56-73 | requests.summary succeeds exactly when every payload of every request parses, and otherwise fails with MalformedPayload; on success the new and affected requests are the same list, one per record in order, with each record's fields and every message hydrated from the record's message, and the updated list is empty |
| Processors.RequestsSummary | fake/fake-service-request.js:56-73 | the nested loop over requests and messages yields the requests view the functional definition describes, including the parse failure |
| Processors.RequestsDetail | fake/fake-service-request.js:74-82 | the detail view of a record has [its request] as new and as affected requests, and nothing as updated |
| Processors.RequestsDetailAsSummary | fake/fake-service-request.js:74-82 | the detail view of a record whose payloads need no parsing is the summary view of that record alone: new and affected are [request], updated is empty |
| Processors.QualifyingAppend | fake/fake-service-request.js:87-93 | the message filter distributes over concatenation |
| Processors.AllMessagesAppend | fake/fake-service-request.js:87-88 | the messages of two record lists appended are the messages of each, appended |
| Processors.QualifyingMembers | fake/fake-service-request.js:89-91 | a message is kept exactly when it is among the input and has non-empty indices or a non-empty abstract |
| Processors.QualifyingPosition | fake/fake-service-request.js:89-91 | a qualifying message is appended at the next output position, after those of the earlier messages; a non-qualifying one adds nothing |
| Processors.AllMessagesMembers | fake/fake-service-request.js:87-88 | a message is among all messages exactly when some record holds it |
| Processors.MessagesSummaryMembers | fake/fake-service-request.js:85-96 | a message is in messages.summary exactly when some record holds it and it has indices or an abstract |
| Processors.MessagesSummary | fake/fake-service-request.js:85-96 | the nested push loop yields exactly the qualifying messages of all records, in record and message order |
| Processors.MessagesDetail | fake/fake-service-request.js:97-99 | messages.detail of a record is the record's messages, unfiltered |
| Processors.MessagesSummaryOfRecord | fake/fake-service-request.js:97-99 | messages.detail of a record is its messages; its summary is the qualifying part of that list and is never longer |
| Cache.StoredAppend | fake/fake-service-request.js:130-134 | caching two batches one after the other is caching their concatenation |
| Cache.StoredUntouched | fake/fake-service-request.js:130-134 | an id that no record of the batch carries keeps its entry, or stays absent |
| Cache.StoredLatest | fake/fake-service-request.js:130-134 | the last record of a batch with a given id is the one stored under it |
| Cache.StoredKeys | fake/fake-service-request.js:130-134 | the ids present after caching are those present before plus the batch's ids |
| Cache.StoredOwnIds | fake/fake-service-request.js:132 | if every entry sits under its own id, that stays so after caching a batch |
| Cache.Lookup | fake/fake-service-request.js:209-218 | the detail lookup succeeds exactly when the id is cached, with that record's messages; otherwise it fails with UnknownDetail for that id |
| Cache.LookupAfterStore | fake/fake-service-request.js:130-134 | after caching a batch, looking up an id gives the messages of the batch's last record with that id; an id neither cached nor in the batch fails with UnknownDetail |
| Cache.LookupAsWritten | fake/fake-service-request.js:211-217 | on a plain object the lookup throws exactly when the id is neither an own key nor a name inherited from Object.prototype |
| Cache.LookupAsWrittenDiffers | fake/fake-service-request.js:211-217 | the lookup as written and Lookup agree on every id except an inherited name that is not cached, where the one as written publishes undefined |
| Cache.ConstructorIdIsFound | fake/fake-service-request.js:211-217 | on an empty cache the id "constructor" is found by the lookup as written but is UnknownDetail for Lookup |
| Generation.StampedOffsets | fake/fake-service-request.js:117-129 | a batch has one record per step; record i carries the i-th drawn data and the previous time less step i; time i lies between 30(i+1) and 300(i+1) seconds before the base offset, and times fall by at least 30 seconds per position |
| Generation.GenerateResults | fake/fake-service-request.js:117-129 | the loop builds exactly that batch and it walks back as described |
| Generation.StreamCount | fake/fake-service-request.js:168 | a stream tick has 1 or 2 records, 2 exactly when the draw exceeds 75 |
| Events.PublishedMessages | fake/fake-service-request.js:135-139 | a messages batch always publishes, and a message is in its payload exactly when some record holds it and it has indices or an abstract |
| Events.PublishedRequests | fake/fake-service-request.js:135-139 | a requests batch publishes exactly when every payload it parses is valid, otherwise stops with MalformedPayload; what it publishes is the records' requests in order as new and affected, nothing as updated, with fields kept and each message hydrated from the record's |
| Events.SummaryTopicInjective | fake/fake-service-request.js:138 | for types without a dot, two summary topics are equal exactly when type and source are |
| Events.SummaryAndDetailTopicsDiffer | fake/fake-service-request.js:204-206 | for types without a dot, no summary topic is a detail topic |
| Service.FakeService.constructor | fake/fake-service-request.js:106-107 | the budget is drawn in [25, 35], all of it is left, and the cache, log and timers are empty |
| Service.FakeService.CacheResults | fake/fake-service-request.js:130-134 | the cache becomes the old cache with every record of the batch written under its id, in order |
| Service.FakeService.PublishResults | fake/fake-service-request.js:135-139 | one emit on the summary topic of the batch's type and source with the processor's result, or nothing and the processor's error |
| Service.FakeService.Batch | fake/fake-service-request.js:141-149 | the budget drops by the count, the generated batch is cached and recorded, the invariant holds, and the processor's result is published or its error returned |
| Service.FakeService.GenerateLocal | fake/fake-service-request.js:153-158 | one requests batch from 25 hours back, recorded in the history and cached, published on data.request.summary.found.local, or the parse failure |
| Service.FakeService.GenerateRemote | fake/fake-service-request.js:159-162 | one messages batch from 10 seconds back, recorded in the history and cached, published on data.message.summary.found.remote |
| Service.FakeService.GenerateStream | fake/fake-service-request.js:163-177 | one tick of 1 or 2 messages from now, recorded in the history and cached, published on data.message.summary.found.stream, then a new timer for position + count |
| Service.FakeService.StreamTimerFired | fake/fake-service-request.js:172-176 | a firing timer is removed; it runs the next tick only while events are left, so with none left nothing else changes; a firing that runs a tick records the tick's batch in the history and leaves `leftEvents >= -1`; each firing lowers the left events or the number of timers |
| Service.FakeService.DetailRemote | fake/fake-service-request.js:209-218 | a cached id publishes its record's messages on data.message.detail.found.remote, and these are the messages of the last record generated under it; an id never generated fails with UnknownDetail and emits nothing |

## Left out

- The SignalR hub mock and `$.hubConnection` (lines 13-49) are a test double for the socket. They only forward a subscription to the stream generator.
- The superagent mock routes and the listener wiring (lines 231-251) are not modelled. They only call the channel entry points.
- The `setTimeout` scheduling wrappers (lines 180-199 and 221-228) and all delays are not modelled. Each callback is a method that the caller invokes.
- `chance` synthesis (`integerRange`, `mvcRequest`) is not modelled. Its draws are parameters, and `fake-extension` is not part of this model.
- `calculateOffset` and the ISO time formatting of `moment` are not modelled. A record's time is its integer offset in seconds from now.
- GenerateLocal, GenerateRemote: the counts `maxEvents * 0.25` and `maxEvents * 0.3` are floating point. `parseInt(count)` charges the budget while `i < count` runs the loop, so the two can differ by one. The model takes a single natural count as a parameter.
- `JSON.parse` is a parameter of type `string -> Option<Json>`. Numbers are integers only.
- HydrateMessage: a payload that is already a parsed value is kept as is. The source would parse its string coercion again.
- The aliasing between the cache and the hydrated requests is not modelled. In the source, `requests.summary` updates the same message objects the cache holds. The model's cache keeps the records as generated, and a lookup reads only their `messages`.
- `console.log` (line 144) is not modelled.
- `_.isEmpty` is modelled on annotations that are absent or a list only. Other JavaScript values are not modelled.
- DetailRemote: it uses the corrected lookup `Cache.Lookup`, so an uncached id inherited from Object.prototype (such as `"constructor"`) fails with UnknownDetail. The code as written publishes `undefined` for such an id instead; `Cache.LookupAsWritten` models that behaviour (see "## Findings").
- CacheResults: a record id equal to an inherited name such as `__proto__` is written as an ordinary key. On a plain object that write would change the prototype instead.

## Findings

| source | as written | input that shows it | evidently intended | confidence | as-written member | corrected member |
|---|---|---|---|---|---|---|
| fake/fake-service-request.js:52, 211-217 | the cache is a plain object `{}` and the lookup throws only when `_rawRequestCache[id]` is falsy | a detail request for id `"constructor"` (or `"toString"`) that no summary produced: the inherited function is truthy, so `undefined` is published on data.message.detail.found.remote | the lookup fails with the TypeError for every id that no summary produced | not executed | Cache.ConstructorIdIsFound | Cache.Lookup |
