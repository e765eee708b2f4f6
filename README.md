# Sensor measurement store

A model of the in-memory measurement store of a small HTTP service that takes
in timestamped sensor readings and reports statistics on them. The service
keeps one process-wide list of measurement records (sensor name, timestamp,
value) for its whole lifetime. Three request handlers use it:

- ingesting a batch appends one record per reading, in batch order;
- deleting a sensor keeps only the records of the other sensors;
- a statistics query reports a snapshot of the whole list: the last record's
  timestamp, the number of records, and the average value. An empty store
  gives no timestamp, count 0 and average 0.0.

The statistics query takes a sensor identifier and does not use it: the
snapshot is always store-wide, and its last timestamp is that of the last
record in the whole store, whichever sensor it belongs to. The model keeps
this behaviour as it is.

Layout:

- `measurements.dfy`, module `Measurements`: the record, the batch item and the
  snapshot as datatypes. It also holds the functions that say what the
  operations compute:
  - `Records`: the records a batch appends;
  - `Total`: the sum of the values;
  - `Without` and `Only`: the records of the other sensors, and of one sensor;
  - `Snapshot`: the statistics reply.
  The lemmas about these functions are in the same module.
- `store.dfy`, module `Store`: the class `MeasurementStore`, whose
  `seq<Measurement>` field stands for the global list. Its methods are the
  store's operations, with the loops of the original spelled out. Three client
  methods at the end walk through one short use of the store: ingest, query,
  delete, query; their contracts state what each query reports.

Values are exact `real` numbers and the average is exact real division.
Timestamps are `int`s that are only carried and handed back, never compared.

## Model

| member | source | states |
|---|---|---|
| Measurements.FromReading | app/main.py:72 | the record carries the reading's sensor, timestamp and value |
| Measurements.Total | app/main.py:49-53 | the sum of all values: 0.0 for no records, the value itself for one record |
| Measurements.Records | app/main.py:71-72 | a batch yields exactly as many records as readings; record i carries reading i's sensor, timestamp and value |
| Measurements.Without | app/main.py:60 | removal never grows the store; every kept record was in the store and belongs to another sensor |
| Measurements.Only | app/main.py:60 | the records the filter drops: all are from the store and belong to the removed sensor |
| Measurements.Snapshot | app/main.py:83-94 | count is the store length; the timestamp is missing exactly when the store is empty, and then avg is 0.0; otherwise the timestamp is the last record's and avg times count equals the total |
| Measurements.TotalAppend | app/main.py:49-53 | the total of two stores one after the other is the sum of their totals |
| Measurements.TotalBounds | app/main.py:49-53 | if every value lies in [lo, hi], the total lies between n·lo and n·hi for n records |
| Measurements.TotalSplit | app/main.py:49-62 | the total is the kept records' total plus the removed sensor's total |
| Measurements.RecordsAppend | app/main.py:68-73 | ingesting two batches in turn appends the same records as ingesting their concatenation |
| Measurements.WithoutAppend | app/main.py:58-62 | removal distributes over concatenation, so removing after an ingest removes from the old store and from the batch separately |
| Measurements.WithoutCounts | app/main.py:60 | after removal each record of another sensor occurs exactly as often as before, and no record of the removed sensor is left |
| Measurements.WithoutUnchanged | app/main.py:58-62 | removal leaves the store unchanged if and only if no record has the removed sensor's name |
| Measurements.WithoutIdempotent | app/main.py:99-102 | deleting the same sensor twice gives the same store as deleting it once |
| Measurements.WithoutCommutes | app/main.py:58-62 | deleting two sensors gives the same store in either order |
| Measurements.WithoutOnlyLength | app/main.py:60 | kept and removed records together account for every record of the store |
| Measurements.AverageBounds | app/main.py:85-87 | on a non-empty store the average lies between any lower and upper bound of all values |
| Measurements.SnapshotAfterAppend | app/main.py:68-94 | after a non-empty append, the count is old plus new, the timestamp is the last new record's, and avg is the combined total over the combined count |
| Measurements.SnapshotAfterRemove | app/main.py:58-90 | after removing a sensor, count and average cover only the other sensors' records |
| Store.MeasurementStore.constructor | app/main.py:17 | the store starts empty |
| Store.MeasurementStore.Ingest | app/main.py:68-73 | the new store is the old store followed by one record per reading in input order; its length grows by exactly the batch size; old records are untouched; each new record carries its reading's sensor, timestamp and value |
| Store.MeasurementStore.TotalValue | app/main.py:49-53 | returns the sum of all values, 0.0 on an empty store; the loop keeps the running total equal to the total of the prefix scanned |
| Store.MeasurementStore.RemoveSensor | app/main.py:58-62 | the new store is the old store's records of other sensors in their order; no remaining record has the removed name |
| Store.MeasurementStore.Stats | app/main.py:80-94 | returns (None, 0, 0.0) on an empty store, otherwise the last record's timestamp, the store length and total divided by length; the reply does not depend on the sensor id and the store is not modified |
| Store.MeasurementStore.DeleteSensor | app/main.py:99-102 | the delete handler leaves exactly the old store's records of other sensors |
| Store.IngestThenQuery | app/main.py:68-94 | returns the reply of a query on an empty store, (None, 0, 0.0), and of a query after ingesting A=2.0 at t1 and B=4.0 at t2, (t2, 2, 3.0), with the store then holding exactly those two records |
| Store.DeleteTwice | app/main.py:99-102 | deleting A from that store leaves only B's record; deleting A again changes nothing |
| Store.QueryRemaining | app/main.py:80-90 | with only B=4.0 at t2 left, any query reports (t2, 1, 4.0) |

## Left out

- HTTP routing, status codes and JSON formatting of replies: framework plumbing around the handlers.
- Parsing and validation of the posted batch: the framework rejects a malformed batch before the handler runs, so `Ingest` takes readings that are already validated, and the store is never partly updated.
- The health check (`healthz`): an outbound network call whose result is only translated into a status code.
- `printOut`: console output for debugging.
- Floating-point rounding: sums and the average are exact real arithmetic, not IEEE-754 doubles.
- Date-time parsing and representation: timestamps are opaque integers.
- Interleaving of asynchronous handlers: every store update is synchronous and is modelled as one sequential step.
- The store as ambient global state: the model makes it an object, and each handler is a method on it.
- SnapshotAfterRemove: requires at least one record to remain; when every record belongs to the removed sensor, the store becomes empty (`WithoutOnlyLength`) and `Snapshot` then gives (None, 0, 0.0).
