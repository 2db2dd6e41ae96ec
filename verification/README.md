# LogiTrack shipment pipeline — a Dafny model

LogiTrack keeps two tables: `shipments`, keyed by an external tracking id, and `shipment_events`, which holds status lines with a place, coordinates and an AI classification. This project models, as pure Dafny functions and small methods over immutable rows, everything that reads or writes those tables:

- **Worker job** (`worker.dfy`, module `Worker`). One run of `worker/worker.py`:
  - If the shipment table is empty, it creates a default shipment.
  - It appends one unclassified mock event for each shipment.
  - It back-fills every unclassified event from a zero-shot classifier's reply.
  - It commits.
- **Seeding** (`seed.dfy`, module `Seed`). `worker/seed_database.py`:
  - find-or-create of a shipment by tracking id;
  - the truncate-then-load of a generated corpus. The corpus is `mock_data.ALL_MOCK_EVENTS`, a module the repository does not contain; the model assumes it is the list generate_mock_data.py prints.
- **Corpus generator** (`mock_data.dfy`, module `MockData`). `generate_mock_data.py`: the forty-port table, the twelve-row status table, and record generation. Every random choice is supplied as a `Draw`.
- **Read API** (`queries.dfy`, module `Queries`). The three SQL endpoints of `backend/main.py`, as pure functions over the tables:
  - delay reasons grouped and counted;
  - at-risk shipments;
  - the latest non-Delivered event of every shipment.
- **Dashboard logic** (`dashboard.dfy`, module `Dashboard`). The data handling of `frontend/app.py`:
  - the headline counters;
  - the rows the globe plots;
  - the status and tracking-id filters;
  - the cleaning of the delay-reason chart data.

Shared pieces:

- `tables.dfy` (`Tables`): the rows, the store with its serial-key counters, the schema invariant `WellFormed` and the two INSERTs.
- `seqs.dfy` (`Seqs`): order-preserving filter, map, count and the subsequence relation.
- `text.dfy` (`Text`): Python's substring `in`, `str(n)` and `zfill`.

Conventions:

- **Timestamps** are `int` seconds since 1970-01-01 on the naive clock. The generator's window runs from 2025-10-01T00:00 = 1759276800 to 2025-10-29T23:59 = 1761782340.
- **Coordinates** are integers scaled by 10^4. Every coordinate literal in the system has four decimals.
- **Exceptions.** A Python exception that escapes is an `Outcome.Raised` value naming the exception. When the worker's back-fill raises, nothing is committed.
- **Inference service.** It is a caller-supplied function from an event's table position to the HTTP reply (`Response`: status code, body text, parsed JSON payload).
- **Row order.** SQL result order is table order. Insertion order is id order for every store built here, and `WellFormed` records that.

## What the code does and does not do

- **Classification.** `query_model` trusts the classifier's top label. There is no fallback classifier and no keyword rule. Without an API key every answer is `("Error", "No API Key")`, which is never written, so nothing is classified.
- **No deduplication.** Each ingest appends one event per shipment unconditionally, with no duplicate suppression.
- **No batch cap.** The back-fill pass classifies every event whose `ai_status` is NULL.
- **Tracking ids are not schema-unique.** `backend/models.py:16` declares `tracking_id` without a UNIQUE constraint. Uniqueness is proved instead as an invariant the writers keep (`Seed.UpsertShipment`, `Seed.SeedDatabase`, `Worker.IngestNewEvents`).
- **Rollback scope.** The worker commits once per job. In the seeder, the `conn.rollback()` at worker/seed_database.py:88 undoes the whole open transaction, TRUNCATE included, although its comment speaks of one event.

## Model

| member | source | states |
|---|---|---|
| Tables.InsertShipment | worker/seed_database.py:39-41 | The new row is appended under the next serial id, and that id is returned. Events are untouched and the schema invariant is kept. |
| Tables.InsertEvent | worker/seed_database.py:68-84 | The event is appended under the next serial id, and shipments are untouched. The invariant is kept when the event's `shipment_id` names an existing shipment (the foreign key). |
| Text.ContainsIffOccurs | worker/worker.py:109 | Python's `pat in text` scan is true exactly when `pat` occurs at some index of `text`. |
| Text.ParseZFillDecimal | generate_mock_data.py:69 | `str(n).zfill(w)` is all digits and reads back as `n`. |
| Text.DecimalStringShort | generate_mock_data.py:69 | A number below 10^6 has at most six decimal digits, so `zfill(6)` pads it to exactly six. |
| Worker.GenerateMockEvent | worker/worker.py:31-79 | The mock event is one of the seven fixed (status, location, lat, lon) rows. |
| Worker.AppendMockEvents | worker/worker.py:154-161 | For each shipment id in order, appends exactly one event. Each event is an unclassified copy of a mock-table row for that shipment. Earlier events and all shipments are unchanged. |
| Worker.IngestBase | worker/worker.py:142-152 | An empty shipment table gets exactly one shipment ("TRK1Z3", "Shanghai, China", "New York, USA"). A non-empty one is left alone. |
| Worker.IngestNewEvents | worker/worker.py:140-161 | Creates the default shipment only when there were none. Earlier events are preserved, and exactly one event is added per shipment, in shipment order. Each added event has NULL `ai_status` and `ai_reason`, the timestamp value `stamp`, and a mock-table row's text, place and coordinates. The schema invariant and tracking-id uniqueness are kept. The shipment counter advances by one exactly when the default shipment is created, and the event counter advances by the number of events added. |
| Worker.IngestOneEventPerShipment | worker/worker.py:154-161 | Among the added events, each pre-existing shipment's id occurs exactly once. |
| Worker.QueryModel | worker/worker.py:82-112 | See the QueryModel cases below the table. |
| Worker.CandidateAnswerIsCategory | worker/worker.py:87-103 | If the top label is one of the six candidate labels, the status is On Time, Delayed or Delivered. Only Delayed carries a reason other than "N/A", and that reason is one of the three causes. The pair is persistable. |
| Worker.ProcessAiEvents | worker/worker.py:115-137 | See the ProcessAiEvents cases below the table. |
| Worker.WorkerMain | worker/worker.py:164-179 | See the WorkerMain cases below the table. |
| Seed.FindShipment | worker/seed_database.py:33-34 | Finds a row exactly when some row carries the tracking id. The row found is the first such row. |
| Seed.FindShipmentAppend | worker/seed_database.py:33-34 | Appending a shipment row never changes where an already-present tracking id is found. |
| Seed.UpsertShipment | worker/seed_database.py:31-41 | Present tracking id: the store is unchanged and the first matching row's id is returned. Absent: exactly one row with the given origin and destination is appended and its fresh id returned. Either way the returned id is the row now found for the tracking id. The schema invariant and tracking-id uniqueness are kept. |
| Seed.UpsertTwice | worker/seed_database.py:31-41 | A second upsert of the same tracking id returns the same id and changes nothing. The table grows by at most one row and stays free of duplicate tracking ids. The row keeps its first-seen origin and destination. |
| Seed.UpsertDefaultsUnknown | worker/seed_database.py:31 | Without origin and destination, a new shipment stores "Unknown" for both. |
| Seed.SeedDatabase | worker/seed_database.py:53-85 | See the SeedDatabase cases below the table. |
| Seed.DistinctShipIdsCount | worker/seed_database.py:57-65 | Records with pairwise different ship ids name exactly as many tracking ids as there are records. |
| Seed.SeedingGeneratedCorpus | generate_mock_data.py:67-69 | The generator's corpus names one distinct tracking id per record, so seeding it creates one shipment per record. |
| MockData.PortNamesDistinct | generate_mock_data.py:5-46 | No two of the forty ports share a name. |
| MockData.OtherPorts | generate_mock_data.py:73 | Leaving out the origin leaves 39 ports, none of which has the origin's name. |
| MockData.ShipIdShape | generate_mock_data.py:69 | The ship id is "SHP" followed by digits that read back as i+1, and it is nine characters while i+1 ≤ 999999. |
| MockData.ShipIdInjective | generate_mock_data.py:69 | Different record numbers get different ship ids. |
| MockData.StatusTableShape | generate_mock_data.py:48-61 | Every status-table row has status On Time, Delayed or Delivered, and its reason is "N/A" exactly when the status is not Delayed. |
| MockData.GenerateRecordShape | generate_mock_data.py:67-100 | See the GenerateRecordShape cases below the table. |
| MockData.GenerateRealisticData | generate_mock_data.py:63-102 | See the GenerateRealisticData cases below the table. |
| Queries.GroupCount | backend/main.py:33-38 | One group per distinct key, NULL included. Each group's count is the number of occurrences of its key and is at least 1. Every key has a group, and the counts add up to the number of keys. |
| Queries.ReasonLabel | backend/main.py:39 | A NULL or empty reason is shown as "N/A". Any other reason is shown as is, so the label is never empty. |
| Queries.DelayReasons | backend/main.py:30-39 | See the DelayReasons cases below the table. |
| Queries.DelayReasonsIgnoreOthers | backend/main.py:35 | Appending an event whose status is not "Delayed" leaves the KPI unchanged. |
| Queries.AtRiskShipments | backend/main.py:42-52 | A shipment is in the result exactly when at least one of its events is "Delayed". The result is an order-preserving subsequence of the table, and with ascending ids no shipment appears twice. |
| Queries.AtRiskStaysAtRisk | backend/main.py:45-51 | A shipment stays at risk whatever events are appended later. |
| Queries.LatestLive | backend/main.py:59-70 | Some event is chosen exactly when the shipment has a non-Delivered event (a NULL status counts). The chosen event is one of that shipment's non-Delivered events, and none of those is later. |
| Queries.NonZero | backend/main.py:81-82 | A NULL or zero coordinate becomes None. Any other coordinate is passed through. |
| Queries.LiveLocations | backend/main.py:55-84 | See the LiveLocations cases below the table. |
| Queries.LiveRowIsLatest | backend/main.py:68-70 | No non-Delivered event of a row's shipment is later than the row. |
| Queries.LiveLocationsCover | backend/main.py:67-70 | A shipment has a row exactly when it has a non-Delivered event. Shipments with none are omitted. |
| Queries.LiveLocationsAscending | backend/main.py:59-70 | With shipment ids ascending in the table, rows come out in strictly ascending shipment id, so there is at most one row per shipment. |
| Dashboard.ComputeCounters | frontend/app.py:194-198 | See the ComputeCounters cases below the table. |
| Dashboard.SumCountsSkipsMissing | frontend/app.py:198 | An item without a count adds 0 to the total. |
| Dashboard.TotalDelaysCountsDelayedEvents | frontend/app.py:198 | Fed the backend's delay-reason KPI, "Total Delay Incidents" equals the number of events classified "Delayed". |
| Dashboard.MapRows | frontend/app.py:216 | Keeps, in order, exactly the rows with both latitude and longitude present: each such row occurs as often as in the input, and no other row occurs. |
| Dashboard.MapRowsNonZero | frontend/app.py:216 | Every point plotted from the live-location endpoint has non-zero coordinates. |
| Dashboard.StatusFilter | frontend/app.py:231-240 | See the StatusFilter cases below the table. |
| Dashboard.StatusFilterIdempotent | frontend/app.py:232-240 | Filtering twice by the same selection equals filtering once. |
| Dashboard.TrackingFilter | frontend/app.py:241-242 | "All" keeps every row. Any other choice keeps exactly the rows with that tracking id, order preserved: each such row occurs as often as in the input, and no other row occurs. |
| Dashboard.PlottedRows | frontend/app.py:231-242 | What the globe shows is an order-preserving subsequence of the live rows, and every row shown has both coordinates. A live row is shown exactly when it has both coordinates, passes the status selection and matches the tracking choice; it then occurs as often as in the live rows, and no other row occurs. |
| Dashboard.PlottedRowsUnfiltered | frontend/app.py:231-242 | With the status selection ["All"] and the tracking choice "All", the globe shows exactly the map rows. |
| Dashboard.CleanKpi | frontend/app.py:360-363 | See the CleanKpi cases below the table. |
| Dashboard.CleanKpiIdempotent | frontend/app.py:360-363 | Cleaning already-cleaned data changes nothing. |

Helpers without a row of their own are covered by the lemmas and contracts about them: `MockData.ShipId` by MockData.ShipIdShape and MockData.ShipIdInjective, `MockData.GenerateRecord` by MockData.GenerateRecordShape, `Worker.TopLabel` by the 200-reply clauses of Worker.QueryModel, `Queries.LiveRow` by Queries.LiveLocations and Queries.LiveRowIsLatest, and `Dashboard.Normalize` by Dashboard.CleanKpi and Dashboard.CleanKpiIdempotent.

Clauses of the longer contracts:

- **Worker.QueryModel**
  - With no key or an empty key, the result is `("Error","No API Key")` and the reply is never looked at.
  - On a 200 reply, the result is defined exactly when the top label can be read.
  - On a 200 reply whose top label is a delay cause, the result is ("Delayed", cause).
  - On a 200 reply with any other top label, the result is (label, "N/A").
  - On any other status code, the status is "Retry", with reason "Model Loading", exactly when the body contains "is currently loading". Otherwise it is "Error".
  - On any other status code, the call raises for a non-JSON body, and for a JSON body that is not an object (list, string, number, boolean or null) and lacks the marker.
- **Worker.ProcessAiEvents**
  - The pass raises exactly when classifying some NULL-status event raises.
  - Otherwise, shipments, counters and the number of events are unchanged.
  - Only `ai_status` and `ai_reason` change.
  - Already-classified events are untouched.
  - Each NULL-status event gets the persistable answer, or stays as it was.
  - "Error" and "Retry" are never written.
  - An event answered with a candidate label ends up with a status of the taxonomy.
  - Without a key, the pass returns the store unchanged.
- **Worker.WorkerMain**
  - The job fails exactly when classifying some NULL-status event of the ingested store raises. In that case the rollback leaves every row as it was before the job and adds none. The id sequences keep the advance drawn by the rolled-back INSERTs, because Postgres never rolls back `nextval`.
  - Otherwise the result is the ingested store with only the AI fields changed, and earlier classified events are kept.
  - Otherwise, each NULL-status event of the ingested store is back-filled with its own classification answer when that answer is persistable, and is left as is when it is not.
  - Without a key, the result is exactly the ingested store.
  - The schema invariant is kept.
- **Seed.SeedDatabase**
  - Seeding starts from empty tables. n records yield exactly n events, `count == n`, and one shipment per distinct ship id.
  - Tracking ids are unique, and the schema invariant holds.
  - Each event copies its record's timestamp, location, raw text, coordinates, `ai_status` and `ai_reason` verbatim.
  - Each event belongs to the shipment whose tracking id is its record's ship id.
  - A shipment keeps the origin and destination of the first record with its id.
- **MockData.GenerateRecordShape**
  - A record has a proper ship id for its position and two ports with different names.
  - Its location is a port, with that port's coordinates.
  - Its status triple is a status-table row.
  - Its timestamp lies in the October window.
- **MockData.GenerateRealisticData**
  - Exactly `num_records` records are produced.
  - Record i's ship id is "SHP" followed by digits reading i+1. Ship ids are pairwise distinct, and nine characters long when `num_records` ≤ 999999.
  - Origin ≠ destination.
  - The location and coordinates are one port's.
  - The status triple is a status-table row, the status is On Time, Delayed or Delivered, and the reason is "N/A" exactly when the status is not Delayed.
  - 2025-10-01T00:00 ≤ timestamp ≤ 2025-10-29T23:59.
- **Queries.DelayReasons**
  - Every row's count is at least 1, and its label is non-empty.
  - Each row counts all delayed events carrying one `ai_reason` value, shown through that value's label.
  - Every delayed event's label appears as a row.
  - The counts sum to the number of "Delayed" events.
  - The rows are one per distinct `ai_reason` value: they are the labelled groups of a grouping of the delayed events' reasons. That grouping has pairwise distinct keys, each counted in full.
- **Queries.LiveLocations**
  - No row has status "Delivered".
  - No coordinate is zero.
  - Each row names a shipment of the table with its tracking id.
  - Each row carries that shipment's latest non-Delivered event, with coordinates passed through `NonZero`.
- **Dashboard.ComputeCounters**
  - Total is the number of live rows, and delayed is the number of at-risk shipments.
  - On-track is `max(total - delayed, 0)`, so it is never negative and never above the total. It complements delayed exactly when delayed ≤ total.
  - Total delays is the sum of the counts, with a missing count taken as 0.
- **Dashboard.StatusFilter**
  - An empty selection, or one containing "All", keeps every row.
  - With "Unknown" selected, the result is exactly the rows with a NULL status, plus the rows whose status is another selected value.
  - Otherwise the result is exactly the rows whose status is selected.
  - The result is always an order-preserving subsequence of the input.
  - In every case each row that passes occurs in the result as often as in the input, and a row that fails does not occur.
- **Dashboard.CleanKpi**
  - Every kept item has a reason other than "N/A" and a positive count, and is the filled form of an input item.
  - A NULL reason with a positive count appears as "Unknown".
  - Any item with a reason other than "N/A" and a positive count is kept unchanged.
  - There is exactly one output row per input item that survives both filters.
  - The output is an order-preserving subsequence of the filled input, so no row is duplicated or reordered.

## Left out

- Database connections, their retry loops, cursors and the SQLAlchemy session (worker/worker.py:18-29, worker/seed_database.py:17-29, backend/database.py). These are I/O; the store is a value.
- The HTTP request to the inference service and the 10-second sleep on "loading" (worker/worker.py:89-92, 110). The reply is an input.
- Worker.QueryModel: the reply's `labels` is assumed to be a list of strings. `data['labels'][0]` (worker/worker.py:96) on a string would take its first character, and on other values would return whatever element or error Python gives. The model cannot express such a reply.
- Worker.QueryModel: a request that fails or never returns is not modelled. `requests.post` (worker/worker.py:89-92) has no timeout, so it can hang, and it can raise `ConnectionError` or `Timeout`, which would end the job like any other exception. Every `Response` value is a reply that arrived.
- Worker.ProcessAiEvents: the reply for an event is a function of its table position, not of its `raw_status_text` as sent. The model does not assume the service is deterministic in the text.
- Worker.IngestNewEvents: the worker's INSERT (worker/worker.py:158-160) omits `timestamp`, and backend/models.py:24 declares the column optional with no default, so the stored value is unknown: NULL unless the live table has a server default that the repository does not show. The model does not promise the ingest time. It takes the value as the free parameter `stamp`, which is never NULL because event timestamps are modelled as never NULL (see the NULL-ordering line below).
- The threaded periodic loop and its interval choice (backend/background_worker.py). These are concurrency and sleeping.
- Streamlit and Plotly rendering, CSS, API fetches, health endpoints, and the float `delay_pct` (frontend/app.py:197). These are UI and floating point.
- Dashboard.CleanKpi: the column-presence check (frontend/app.py:359) is not modelled; the items always have both fields, possibly missing. `astype(int)` truncation of a non-integer count is not modelled: counts are integers.
- Dashboard.ComputeCounters: a count that is present but JSON `null` would make Python's `sum` raise. Only a missing count (read as 0) is modelled; the backend never sends `null`.
- Transaction and rollback semantics. Only the path on which no INSERT fails is modelled (Seed.SeedDatabase). After a seeding rollback, `count` no longer reflects stored rows.
- Seed.SeedDatabase: the corpus comes from `mock_data.ALL_MOCK_EVENTS` (worker/seed_database.py:9), and no `mock_data` module appears in the repository. The model assumes it is the list that generate_mock_data.py prints (generate_mock_data.py:104-112), which is what Seed.SeedingGeneratedCorpus connects.
- Random choices in the generator are caller-supplied `Draw` values. The module-level printing of the corpus (generate_mock_data.py:104-112) is output only.
- MockData.GenerateRealisticData: timestamps are integers, not the `%Y-%m-%dT%H:%M:%S` text the generator emits and Postgres parses back.
- Queries.LiveLocations: Postgres returns rows in `ORDER BY s.id`. The model returns them in table order, which agrees whenever shipment ids ascend in the table (Queries.LiveLocationsAscending; `WellFormed` guarantees it).
- Queries.LatestLive: among several non-Delivered events with the same greatest timestamp, Postgres may pick any. The model picks the first in table order.
- Postgres NULL ordering under `ORDER BY ... DESC`. Event timestamps are modelled as never NULL. Under `DESC`, Postgres sorts NULL first, so a worker-inserted event stored with a NULL timestamp would be picked as the latest live event. That case lies outside the model.
- Decimal and float coordinate arithmetic. Coordinates are scaled integers, and only the zero/NULL test matters.
- Queries.DelayReasons: the order of `GROUP BY` groups is unspecified in SQL. The model orders them by first occurrence of the key.
