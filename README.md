# GPS telemetry forwarder: buffer, persist and resend

This project models the delivery pipeline of a GPS telemetry forwarder that
exists as two scripts, `gps_tracker.py` and `main.py`. Both take position
samples from the vehicle's message bus and push them to a Traccar/OsmAnd-style
collector over HTTP. A sample that cannot be delivered goes into an in-memory
buffer and from there into a SQLite table. Every tick then tries to resend the
whole table. The table is deleted only after every row of it was accepted.

- `common.dfy` (module `Common`): optional fields and the collector's replies.
  A reply is a status code or an exception. A send succeeds only on status 200.
- `local_store.dfy` (module `LocalStore`): the `gps_data` table as a class
  `Store`. Its rows carry AUTOINCREMENT ids. It offers insert, fetch-all and
  delete-all.
- `gps_tracker.dfy` (module `GpsTracker`): one tick of `GPSTrackerApp.run`.
  - The tick handles a fix, or a timestamp-only heartbeat.
  - The fix is sent at once when the probe says yes. Otherwise, or when the send
    fails, it is buffered.
  - The buffer is then flushed to the store, and the store is resent all or nothing.
  - The offroad counter gates offroad ticks.
- `main_tracker.dfy` (module `MainTracker`): one tick of `run_gps_tracker`.
  - Readings collect until the buffer reaches `BUFFER_SIZE`.
  - The buffer is then sent as one batch. It is cleared on success and flushed
    to the store otherwise.
  - The tick ends with a resend of the store.

Each tick is a pure function `TickSpec` of an abstract state (buffer, samples
in the store and, for `gps_tracker.py`, `offroad_count`). A `Tracker` class
holds the same state as fields. Its `Tick` method runs the source's steps
imperatively and is proved to produce exactly `TickSpec`'s new state. `Run`
folds `TickSpec` over a sequence of ticks. The lemmas about `Run` cover no
loss, order, the capacity bound and the offroad counter.

The outside world is a per-tick `Inputs` value:

- the reachability probe, as a bool;
- the collector's reply to every request, as a function from attempt number to
  `Response`;
- what the bus delivered: the fix or reading, and the device's `started` flag;
- the clock's timestamp, as an opaque string.

Floating-point fields are carried as `real` and are never computed on.

Points where the code does something a reader might not expect:

- The probe is consulted separately before the immediate send and again inside
  `send_stored_data`. The model therefore has two probe inputs per tick.
- `gps_tracker.py` has no capacity trigger. Every tick flushes whatever the
  buffer holds, and `BUFFER_SIZE` is unused there.
- `main.py` has no heartbeat. A tick without a reading appends nothing.
- `OFFROAD_UPDATE_FACTOR` is read from the `UPDATE_FREQUENCY` key
  (gps_tracker.py:24). It therefore equals the update frequency whenever that
  key is set, and 12 otherwise. The model takes the factor as a parameter.

## Model

| member | source | states |
|---|---|---|
| `LocalStore.Store.constructor` | gps_tracker.py:37-52 | a freshly created table is empty and its first id will be 1 |
| `LocalStore.Store.Insert` | gps_tracker.py:55-69 | an insert appends exactly one row at the end, under a new id larger than every id so far; the stored samples grow by exactly that sample (main.py:30-37 behaves the same) |
| `LocalStore.Store.FetchAll` | gps_tracker.py:72-83 | the fetch returns every row, in insertion order, with strictly increasing ids (main.py:39-46 behaves the same) |
| `LocalStore.Store.DeleteAll` | gps_tracker.py:86-96 | the delete empties the table and does not reset the id counter, so ids are never reused (main.py:48-54 behaves the same) |
| `Common.AcceptedOnly200` | gps_tracker.py:124-136 | a send counts as delivered iff the reply is status 200; any other status and any exception is a failure (main.py:74-81 behaves the same) |
| `GpsTracker.SendParamsFaithful` | gps_tracker.py:111-122 | the request carries the device id and every field unchanged, except that a missing bearing becomes 0: two fixes give the same request iff they agree once a missing bearing is read as 0 |
| `GpsTracker.SendRows` | gps_tracker.py:218-224 | every fetched row is sent, in order, even after a failed send; `success` is true iff every reply was status 200 |
| `GpsTracker.Handle` | gps_tracker.py:300-347 | after the send-or-buffer step, the flush and the resend, the buffer is empty and every buffered, stored or current tuple is either stored or confirmed delivered (multiset equality) |
| `GpsTracker.OffroadGate` | gps_tracker.py:274-282 | an offroad tick raises iff the factor is not positive (a negative one fails in `time.sleep`, zero in the `%`); otherwise it pings iff the count is a multiple of the factor, resetting the count to 0, and skips otherwise, incrementing the count |
| `GpsTracker.TickSpec` | gps_tracker.py:257-349 | no tuple is lost within a tick; a completed tick handles exactly one tuple and leaves the buffer empty; a restarting, skipped or failed tick changes neither the buffer nor the store |
| `GpsTracker.TickStoreAllOrNothing` | gps_tracker.py:213-232 | after a completed tick the store is either the old store followed, in order, by the old buffer and the unsent tuple, or empty; it is empty only if the probe said yes, the fetch succeeded and every row was accepted |
| `GpsTracker.TickSample` | gps_tracker.py:316-340 | a completed tick handles the fix when onroad and one arrived, and otherwise exactly the heartbeat `(None, None, None, None, timestamp, None, None)` |
| `GpsTracker.TickRestart` | gps_tracker.py:259-265 | a tick ends the run iff the device state was updated with a `started` flag different from `onroad`; such a tick handles no sample and changes nothing |
| `GpsTracker.TickOffroadCountStaysZero` | gps_tracker.py:267-282 | from `offroad_count == 0` no tick takes the `continue` branch and the count is still 0 afterwards |
| `GpsTracker.TickAllRejected` | gps_tracker.py:300-347 | when the immediate send and the first resend are rejected, the tick confirms nothing and appends its tuple to the store |
| `GpsTracker.Run` | gps_tracker.py:257-352 | the `while True` loop until the client restarts: every tick handles at most one tuple or is skipped, and a restarting tick handles none |
| `GpsTracker.RunNoLoss` | gps_tracker.py:257-352 | over any run, for any probe results and replies, every tuple ever handled is still buffered or stored, or was confirmed delivered (multiset equality) |
| `GpsTracker.RunOffroadCountStaysZero` | gps_tracker.py:250-282 | starting from `offroad_count = 0`, no tick of a run is ever skipped and the count stays 0, so line 281 is unreachable |
| `GpsTracker.RunAllRejected` | gps_tracker.py:257-349 | if the collector rejects every send, nothing is confirmed and the store grows by every handled tuple, in the order the ticks handled them |
| `GpsTracker.OffroadGateDiffers` | gps_tracker.py:276-282 | for a factor of at least 2, the gate as written pings on the second offroad tick, where the intended gate skips |
| `GpsTracker.IntendedGatePingsEveryFactor` | gps_tracker.py:23-24 | the corrected gate counts every offroad tick and pings on tick `k` iff `k` is a multiple of the factor |
| `GpsTracker.Tracker.constructor` | gps_tracker.py:248-250 | `run` starts with an empty buffer, `offroad_count = 0` and the existing store |
| `GpsTracker.Tracker.FlushBuffer` | gps_tracker.py:205-210 | every buffered tuple is appended to the store in buffer order, the existing rows are untouched, and the buffer is left empty |
| `GpsTracker.Tracker.SendStoredData` | gps_tracker.py:213-232 | every row is resent when the probe says yes and the fetch succeeds; rows are deleted iff the store was non-empty and every row was accepted; otherwise the store is unchanged |
| `GpsTracker.Tracker.HandleTuple` | gps_tracker.py:300-347 | the send-or-buffer, flush and resend steps produce exactly the state and confirmations of `Handle` |
| `GpsTracker.Tracker.Tick` | gps_tracker.py:258-349 | one iteration of the loop produces exactly the outcome, state and confirmations of `TickSpec`, including the restart, the offroad gate and the exception a non-positive factor raises |
| `MainTracker.BatchParamsFaithful` | main.py:62-72 | a batch request carries the reading's five fields unchanged, so two readings give the same request iff they are equal; the device id 971543493196, speed 0, bearing 0 and battery 75 are fixed |
| `MainTracker.FirstMalformed` | main.py:60-61 | finds the first element that the five-field unpack rejects: every earlier element has five fields |
| `MainTracker.SendGpsDataBatch` | main.py:56-83 | every element before the first malformed one is sent, in order, without stopping at a failure; with none malformed the result is the AND of the replies (true for an empty batch); otherwise the unpack raises |
| `MainTracker.StoredBatchRaises` | main.py:43-61 | a non-empty batch of stored rows fails the unpack at its very first element, so no stored row is ever sent |
| `MainTracker.ProjectedBatchUnpacks` | main.py:61 | with the id column dropped, every row passes the unpack |
| `MainTracker.Collect` | main.py:131-146 | a flush attempt happens iff a reading arrived and brought the buffer to `BUFFER_SIZE`; it always empties the buffer; if the probe is up and every reply is 200, the whole buffer is confirmed and the store is untouched, and otherwise the buffer is appended to the store in order and nothing is confirmed; without a flush the reading is appended to the buffer |
| `MainTracker.CollectNoLoss` | main.py:131-146 | taking in a reading and sending or flushing the buffer loses nothing and only appends to the store |
| `MainTracker.TickSpec` | main.py:129-151 | no reading is lost within a tick; the store only grows; the tick aborts iff the probe is up while the store is non-empty |
| `MainTracker.TickBufferBelowCapacity` | main.py:136-146 | with `BUFFER_SIZE >= 1`, a tick that starts with fewer than `BUFFER_SIZE` buffered readings ends with fewer |
| `MainTracker.Run` | main.py:129-154 | the `while True` loop: every tick takes in at most one reading |
| `MainTracker.RunNoLoss` | main.py:129-154 | over any run every reading taken in is still buffered or stored, or was confirmed delivered (multiset equality) |
| `MainTracker.RunBufferBelowCapacity` | main.py:129-146 | with `BUFFER_SIZE >= 1`, the buffer stays below capacity at the top of every iteration of a run |
| `MainTracker.RunStoreOnlyGrows` | main.py:115-126 | whatever the probe and the collector answer, the store at the end of a run starts with the store at its beginning: it is never drained |
| `MainTracker.RunAllRejected` | main.py:136-146 | if the collector rejects every batch, nothing is confirmed and the store followed by the buffer holds every reading, in arrival order |
| `MainTracker.Tracker.constructor` | main.py:15-17 | the process starts with an empty buffer and the existing store |
| `MainTracker.Tracker.FlushBuffer` | main.py:108-113 | every buffered reading is appended to the store in buffer order, the existing rows are untouched, and the buffer is left empty |
| `MainTracker.Tracker.SendStoredData` | main.py:115-126 | when the probe says yes and the store is non-empty, the rows go to the batch send; they are deleted only after a batch that did not raise and had every reply accepted; otherwise the store is unchanged, and a raising batch aborts the tick |
| `MainTracker.Tracker.SendStoredDataFixed` | main.py:115-126 | with the id column dropped, the resend never raises, and it deletes all rows iff the probe said yes, the store was non-empty and every row was accepted; otherwise the store is unchanged |
| `MainTracker.Tracker.CollectReading` | main.py:131-146 | the append, capacity check, batch send and flush produce exactly the state and confirmations of `Collect` |
| `MainTracker.Tracker.Tick` | main.py:129-154 | one iteration of the loop produces exactly the outcome, state and confirmations of `TickSpec` |

## Left out

- HTTP requests, the reachability check against google.com and the `requests`
  library are not modelled. They become the oracle inputs `online` and the
  reply functions.
- The probe is modelled as never raising. `is_internet_available` catches only
  `ConnectionError`, so a read timeout raises instead of returning false. In
  `gps_tracker.py` that exception reaches the loop handler before the current
  tuple is buffered, and the tuple is lost. The no-loss lemmas assume probes
  that answer.
- SQLite connection handling and storage errors are left out: the store always
  succeeds.
  - In `gps_tracker.py` a failed insert is only logged, which would drop the sample.
  - A failed fetch returns `None`. This one is modelled, as the `fetchFailed` input.
  - A failed `sqlite3.connect` makes the `finally: conn.close()` raise on an
    unbound name.
  - In `main.py` storage errors abort the tick.
- `init_db` failure and process restart are left out.
- The `cereal.messaging` bus (`SubMaster`, `sub_sock`, `get_gps_data`) is left
  out. Its results are inputs: the fix or reading, and the device-state update
  with its `started` flag.
- The derived values of `get_gps_data` are not modelled, because they are
  floating-point arithmetic. These are `calculate_bearing`, the vNED speed
  magnitude and the 1.852 speed factor.
- `time.sleep`, the startup delay, `datetime.utcnow` and logging are left out.
  Timestamps are opaque strings. The one exception a sleep can raise that
  changes what a tick does is modelled: with a negative `UPDATE_FREQUENCY` the
  offroad sleep at gps_tracker.py:274 raises before the gate. The closing sleep
  at gps_tracker.py:349 raises in the same case, but only after the tick's work
  is done. The model reports such a tick as completed, because the state is the same.
- Configuration parsing (`decouple`, `os.getenv`) is left out. `BUFFER_SIZE`,
  the offroad factor and the device id are constructor parameters.
- `test.py` and `test01.py` are debugging scripts without pipeline logic and are
  not part of this model.
- `GpsTracker.Params`, `MainTracker.Params`: `requests` drops query parameters
  whose value is `None`. The model keeps such fields as `None` rather than
  removing them from the query.

## Findings

| source | as written | input that shows it | evidently intended | confidence | as-written member | corrected member |
|---|---|---|---|---|---|---|
| main.py:61 | `send_gps_data_batch` unpacks five fields from every element. Rows fetched with `SELECT *` (main.py:43) have six, id first. The `ValueError` is raised outside the `try` at :74, so it aborts the tick before any row is sent. `delete_stored_data` is never reached, and the store only grows. | probe up and a store holding one row | drop the id column before unpacking, as gps_tracker.py:220 does | high; not executed | `MainTracker.RunStoreOnlyGrows` | `MainTracker.Tracker.SendStoredDataFixed` |
| gps_tracker.py:276-282 | the ping branch resets `offroad_count` to 0, and only the skip branch increments it. From its initial 0 the count never advances, so every offroad tick pings. | two consecutive offroad ticks with the default factor 12 | ping once every `OFFROAD_UPDATE_FACTOR` offroad ticks, as the comment at gps_tracker.py:23 says | high; not executed | `GpsTracker.RunOffroadCountStaysZero` | `GpsTracker.IntendedGatePingsEveryFactor` |

The ticks themselves follow the code as written. The corrected members stand
beside them and carry the intended property.
