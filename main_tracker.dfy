/** The tracker of main.py: readings collect in the global buffer until it holds
    BUFFER_SIZE of them; the buffer is then sent as one batch, and cleared on
    success or flushed to the store otherwise; every tick ends with an attempt to
    resend the whole store.

    The reachability probe, the collector's replies and the bus are inputs of
    each tick (`Inputs`). */
module MainTracker {
  import opened Common
  import opened LocalStore

  /** The five-field tuple (lat, lon, altitude, accuracy, timestamp) that
      `get_gps_data` returns. Its numbers are never computed on here. */
  datatype Reading = Reading(lat: real, lon: real, altitude: real, accuracy: real,
                             timestamp: string)

  /** A batch element as the unpack `lat, lon, alt, acc, timestamp = data` sees
      it: a buffered reading has five fields, while a row fetched with
      `SELECT *` has six, the id column first. */
  datatype Tuple = Fields5(reading: Reading) | Fields6(id: nat, reading: Reading)

  /** The buffer handed to `send_gps_data_batch`. */
  function BufferBatch(buffer: seq<Reading>): seq<Tuple>
  {
    seq(|buffer|, i requires 0 <= i < |buffer| => Fields5(buffer[i]))
  }

  /** The rows `fetch_stored_data` returns, as `send_stored_data` passes them on. */
  function StoredBatch(rows: seq<Row<Reading>>): seq<Tuple>
  {
    seq(|rows|, i requires 0 <= i < |rows| => Fields6(rows[i].id, rows[i].sample))
  }

  /** The rows with their id column dropped, as the resend evidently intends. */
  function ProjectedBatch(rows: seq<Row<Reading>>): seq<Tuple>
  {
    seq(|rows|, i requires 0 <= i < |rows| => Fields5(rows[i].sample))
  }

  /** The query parameters of one request: a fixed device id, speed and bearing
      0, and a battery level of 75. */
  datatype Params = Params(deviceId: int, lat: real, lon: real, altitude: real,
                           accuracy: real, timestamp: string, speed: int,
                           bearing: int, batt: int)

  const DeviceId: int := 971543493196

  function BatchParams(r: Reading): Params {
    Params(DeviceId, r.lat, r.lon, r.altitude, r.accuracy, r.timestamp, 0, 0, 75)
  }

  /** A batch request carries the reading's five fields unchanged and nothing
      else that depends on it: two readings give the same request exactly when
      they are equal, and the device id, speed, bearing and battery are fixed. */
  lemma BatchParamsFaithful(a: Reading, b: Reading)
    ensures BatchParams(a) == BatchParams(b) <==> a == b
    ensures BatchParams(a).deviceId == DeviceId && BatchParams(a).batt == 75
    ensures BatchParams(a).speed == 0 && BatchParams(a).bearing == 0
  {
  }

  /** The index of the first element the five-field unpack rejects, or the
      batch's length when it rejects none. */
  function FirstMalformed(batch: seq<Tuple>): (k: nat)
    ensures k <= |batch|
    ensures forall i :: 0 <= i < k ==> batch[i].Fields5?
    ensures k < |batch| ==> batch[k].Fields6?
  {
    if batch == [] || batch[0].Fields6? then 0 else 1 + FirstMalformed(batch[1..])
  }

  /** How `send_gps_data_batch` ends: it returns the AND of the per-element
      results, or the unpack raises ValueError, which its `try` does not cover. */
  datatype BatchResult = Returned(success: bool) | UnpackError

  /** `send_gps_data_batch`: attempts every element in order, without stopping
      at a failed send, and returns true exactly when every send was accepted (an
      empty batch returns true). An element that is not a five-field tuple raises
      before it is sent, after the elements before it were sent. */
  method SendGpsDataBatch(batch: seq<Tuple>, replies: nat -> Response)
    returns (result: BatchResult, requests: seq<Params>)
    ensures var k := FirstMalformed(batch);
      |requests| == k &&
      (forall i :: 0 <= i < k ==> requests[i] == BatchParams(batch[i].reading))
    ensures result == if FirstMalformed(batch) < |batch| then UnpackError
                      else Returned(AllAccepted(replies, |batch|))
  {
    var success := true;
    requests := [];
    for i := 0 to |batch|
      invariant forall j :: 0 <= j < i ==> batch[j].Fields5?
      invariant |requests| == i
      invariant forall j :: 0 <= j < i ==> requests[j] == BatchParams(batch[j].reading)
      invariant success <==> AllAccepted(replies, i)
    {
      if batch[i].Fields6? {
        return UnpackError, requests;
      }
      requests := requests + [BatchParams(batch[i].reading)];
      if !Accepted(replies(i)) {
        success := false;
      }
    }
    result := Returned(success);
  }

  /** Every row fetched from the store has the id column, so the unpack rejects
      the very first one: no stored row is ever sent. */
  lemma StoredBatchRaises(rows: seq<Row<Reading>>)
    requires rows != []
    ensures FirstMalformed(StoredBatch(rows)) == 0
  {
  }

  /** With the id column dropped, the unpack accepts every row. */
  lemma ProjectedBatchUnpacks(rows: seq<Row<Reading>>)
    ensures FirstMalformed(ProjectedBatch(rows)) == |rows|
  {
  }

  /** What the world supplies to one tick of `run_gps_tracker`. */
  datatype Inputs = Inputs(
    reading: Option<Reading>,        // what `get_gps_data` returned
    online: bool,                    // the probe before the batch send
    replies: nat -> Response,        // the replies to the batch's requests, in order
    onlineForBacklog: bool,          // the probe in `send_stored_data`
    backlogReplies: nat -> Response) // the replies to the resent rows, in order

  /** How a tick ends: the whole body ran, or an exception reached the loop's
      handler at line 152. */
  datatype Outcome = Done | Aborted

  /** The state a tick changes: the global buffer and the samples in the store. */
  datatype State = State(buffer: seq<Reading>, backlog: seq<Reading>)

  /** One tick's effect: whether the buffer was sent or flushed, the reading the
      tick took in (if any), and the readings whose delivery was confirmed. */
  datatype Step = Step(outcome: Outcome, state: State, flushed: bool,
                       sampled: seq<Reading>, confirmed: seq<Reading>)

  /** Lines 131-146: append the reading, and once the buffer holds at least
      `bufferSize` readings send it as a batch, clearing it on success and
      flushing it to the store when offline or on failure. A flush attempt
      happens exactly when the appended reading brings the buffer to capacity,
      and it always leaves the buffer empty. */
  function Collect(bufferSize: int, s: State, inp: Inputs): (r: Step)
    ensures r.outcome == Done
    ensures r.flushed <==> inp.reading.Some? && |s.buffer| + 1 >= bufferSize
    ensures r.sampled == if inp.reading.Some? then [inp.reading.value] else []
    ensures !r.flushed ==> r.state == State(s.buffer + r.sampled, s.backlog) && r.confirmed == []
    ensures r.flushed ==>
      r.state.buffer == [] &&
      if inp.online && AllAccepted(inp.replies, |s.buffer| + 1) then
        r.state.backlog == s.backlog && r.confirmed == s.buffer + r.sampled
      else
        r.state.backlog == s.backlog + s.buffer + r.sampled && r.confirmed == []
  {
    if inp.reading.None? then Step(Done, s, false, [], [])
    else
      var buf := s.buffer + [inp.reading.value];
      if |buf| < bufferSize then Step(Done, State(buf, s.backlog), false, [inp.reading.value], [])
      else if inp.online && AllAccepted(inp.replies, |buf|) then
        Step(Done, State([], s.backlog), true, [inp.reading.value], buf)
      else Step(Done, State([], s.backlog + buf), true, [inp.reading.value], [])
  }

  /** Taking in a reading and sending or flushing the buffer lose nothing, and
      only append to the store. */
  lemma CollectNoLoss(bufferSize: int, s: State, inp: Inputs)
    ensures var r := Collect(bufferSize, s, inp);
      multiset(s.buffer) + multiset(s.backlog) + multiset(r.sampled) ==
      multiset(r.state.buffer) + multiset(r.state.backlog) + multiset(r.confirmed)
    ensures var r := Collect(bufferSize, s, inp);
      |s.backlog| <= |r.state.backlog| && r.state.backlog[..|s.backlog|] == s.backlog
  {
    var r := Collect(bufferSize, s, inp);
    if !r.flushed {
      assert multiset(r.state.buffer) == multiset(s.buffer) + multiset(r.sampled);
    } else if r.confirmed == [] {
      assert multiset(r.state.backlog) == multiset(s.backlog) + multiset(s.buffer) + multiset(r.sampled);
      assert r.state.backlog[..|s.backlog|] == s.backlog;
    } else {
      assert multiset(r.confirmed) == multiset(s.buffer) + multiset(r.sampled);
    }
  }

  /** One tick of `run_gps_tracker`, as a function of the state. The resend at
      line 149 never changes the store: with the probe up and a non-empty store
      it raises before any row is sent. Nothing is lost, and the store only grows. */
  function TickSpec(bufferSize: int, s: State, inp: Inputs): (r: Step)
    ensures multiset(s.buffer) + multiset(s.backlog) + multiset(r.sampled) ==
            multiset(r.state.buffer) + multiset(r.state.backlog) + multiset(r.confirmed)
    ensures |s.backlog| <= |r.state.backlog| && r.state.backlog[..|s.backlog|] == s.backlog
    ensures r.outcome == Aborted <==> inp.onlineForBacklog && r.state.backlog != []
    ensures r.state == Collect(bufferSize, s, inp).state
  {
    var c := Collect(bufferSize, s, inp);
    CollectNoLoss(bufferSize, s, inp);
    if inp.onlineForBacklog && c.state.backlog != [] then c.(outcome := Aborted) else c
  }

  /** With BUFFER_SIZE at least 1, the buffer holds fewer than BUFFER_SIZE
      readings at the top of every iteration: a tick that starts below capacity
      ends below it. */
  lemma TickBufferBelowCapacity(bufferSize: int, s: State, inp: Inputs)
    requires 1 <= bufferSize && |s.buffer| < bufferSize
    ensures |TickSpec(bufferSize, s, inp).state.buffer| < bufferSize
  {
  }

  /** A run of ticks; an aborted tick keeps what it changed before the exception. */
  datatype Trace = Trace(state: State, sampled: seq<Reading>, confirmed: seq<Reading>)

  function Run(bufferSize: int, s: State, ins: seq<Inputs>): (t: Trace)
    ensures |t.sampled| <= |ins|
    decreases |ins|
  {
    if ins == [] then Trace(s, [], [])
    else
      var r := TickSpec(bufferSize, s, ins[0]);
      var t := Run(bufferSize, r.state, ins[1..]);
      Trace(t.state, r.sampled + t.sampled, r.confirmed + t.confirmed)
  }

  /** Over any run, whatever the probe and the collector answer, every reading
      ever taken in is still buffered or stored, or was confirmed delivered. */
  lemma {:induction false} RunNoLoss(bufferSize: int, s: State, ins: seq<Inputs>)
    ensures var t := Run(bufferSize, s, ins);
      multiset(s.buffer) + multiset(s.backlog) + multiset(t.sampled) ==
      multiset(t.state.buffer) + multiset(t.state.backlog) + multiset(t.confirmed)
    decreases |ins|
  {
    if ins != [] {
      var r := TickSpec(bufferSize, s, ins[0]);
      var t := Run(bufferSize, r.state, ins[1..]);
      RunNoLoss(bufferSize, r.state, ins[1..]);
      ComposeNoLoss(s.buffer, s.backlog, r.sampled, r.state.buffer, r.state.backlog, r.confirmed,
                    t.sampled, t.state.buffer, t.state.backlog, t.confirmed);
    }
  }

  /** With BUFFER_SIZE at least 1, a run that starts below capacity never ends
      above it. */
  lemma {:induction false} RunBufferBelowCapacity(bufferSize: int, s: State, ins: seq<Inputs>)
    requires 1 <= bufferSize && |s.buffer| < bufferSize
    ensures |Run(bufferSize, s, ins).state.buffer| < bufferSize
    decreases |ins|
  {
    if ins != [] {
      TickBufferBelowCapacity(bufferSize, s, ins[0]);
      RunBufferBelowCapacity(bufferSize, TickSpec(bufferSize, s, ins[0]).state, ins[1..]);
    }
  }

  /** The store is never drained: whatever the probe and the collector answer,
      the store at the end of a run starts with the store at its beginning. */
  lemma {:induction false} RunStoreOnlyGrows(bufferSize: int, s: State, ins: seq<Inputs>)
    ensures var t := Run(bufferSize, s, ins);
      |s.backlog| <= |t.state.backlog| && t.state.backlog[..|s.backlog|] == s.backlog
    decreases |ins|
  {
    if ins != [] {
      var r := TickSpec(bufferSize, s, ins[0]);
      RunStoreOnlyGrows(bufferSize, r.state, ins[1..]);
      var t := Run(bufferSize, r.state, ins[1..]);
      assert t.state.backlog[..|s.backlog|] == t.state.backlog[..|r.state.backlog|][..|s.backlog|];
    }
  }

  /** When the collector rejects every batch, nothing is confirmed and the store
      followed by the buffer holds every reading taken in, in order. */
  lemma {:induction false} RunAllRejected(bufferSize: int, s: State, ins: seq<Inputs>)
    requires forall k :: 0 <= k < |ins| ==> !Accepted(ins[k].replies(0))
    ensures var t := Run(bufferSize, s, ins);
      t.confirmed == [] && t.state.backlog + t.state.buffer == s.backlog + s.buffer + t.sampled
    decreases |ins|
  {
    if ins != [] {
      var r := TickSpec(bufferSize, s, ins[0]);
      assert !AllAccepted(ins[0].replies, |s.buffer| + 1);
      assert r.state.backlog + r.state.buffer == s.backlog + s.buffer + r.sampled;
      var rest := ins[1..];
      assert forall k :: 0 <= k < |rest| ==> rest[k] == ins[k + 1];
      RunAllRejected(bufferSize, r.state, rest);
      var t := Run(bufferSize, r.state, rest);
      AppendAssoc(s.backlog + s.buffer, r.sampled, t.sampled);
    }
  }

  /** The process state of main.py: the global buffer and the store. */
  class Tracker {
    var buffer: seq<Reading>
    const store: Store<Reading>
    const bufferSize: int

    ghost predicate Valid()
      reads this, store
    {
      store.Valid()
    }

    /** The abstract state `TickSpec` works on. */
    function View(): State
      reads this, store
    {
      State(buffer, Samples(store.rows))
    }

    /** Process start: an empty buffer and the store left by earlier runs. */
    constructor (store: Store<Reading>, bufferSize: int)
      requires store.Valid()
      ensures Valid()
      ensures this.store == store && this.bufferSize == bufferSize && buffer == []
    {
      this.store := store;
      this.bufferSize := bufferSize;
      buffer := [];
    }

    /** `flush_buffer`: stores every buffered reading, in buffer order, then
        empties the buffer; nothing else in the store changes. */
    method FlushBuffer()
      requires Valid()
      modifies this, store
      ensures Valid()
      ensures buffer == []
      ensures Samples(store.rows) == old(Samples(store.rows)) + old(buffer)
      ensures store.rows[..|old(store.rows)|] == old(store.rows)
    {
      for i := 0 to |buffer|
        invariant store.Valid()
        invariant buffer == old(buffer)
        invariant Samples(store.rows) == old(Samples(store.rows)) + buffer[..i]
        invariant |old(store.rows)| <= |store.rows| && store.rows[..|old(store.rows)|] == old(store.rows)
      {
        store.Insert(buffer[i]);
      }
      buffer := [];
    }

    /** `send_stored_data` as written: when the probe says yes and the store is
        not empty, its rows go to `send_gps_data_batch`, and all of them are
        deleted only after a fully accepted batch. The six-field rows make that
        batch raise; the store is then unchanged and the exception aborts the tick. */
    method SendStoredData(online: bool, replies: nat -> Response) returns (aborted: bool)
      requires Valid()
      modifies store
      ensures Valid()
      ensures var batch := StoredBatch(old(store.rows));
        aborted <==> online && batch != [] && FirstMalformed(batch) < |batch|
      ensures var batch := StoredBatch(old(store.rows));
        store.rows == if online && batch != [] && FirstMalformed(batch) == |batch| &&
                         AllAccepted(replies, |batch|) then [] else old(store.rows)
    {
      aborted := false;
      if online {
        var stored := store.FetchAll();
        if stored != [] {
          var result, _ := SendGpsDataBatch(StoredBatch(stored), replies);
          if result == UnpackError {
            return true;
          }
          if result.success {
            store.DeleteAll();
          }
        }
      }
    }

    /** `send_stored_data` with each row's id column dropped before the batch is
        sent: the batch never raises, and all rows are deleted exactly when the
        probe said yes, the store was not empty and every row was accepted;
        otherwise the store is unchanged. */
    method SendStoredDataFixed(online: bool, replies: nat -> Response) returns (cleared: bool)
      requires Valid()
      modifies store
      ensures Valid()
      ensures cleared <==> online && old(store.rows) != [] && AllAccepted(replies, |old(store.rows)|)
      ensures store.rows == if cleared then [] else old(store.rows)
    {
      cleared := false;
      if online {
        var stored := store.FetchAll();
        if stored != [] {
          ProjectedBatchUnpacks(stored);
          var result, _ := SendGpsDataBatch(ProjectedBatch(stored), replies);
          if result.success {
            store.DeleteAll();
            cleared := true;
          }
        }
      }
    }

    /** Lines 131-146 of one tick. */
    method CollectReading(inp: Inputs) returns (acked: seq<Reading>)
      requires Valid()
      modifies this, store
      ensures Valid()
      ensures var r := Collect(bufferSize, old(View()), inp);
        View() == r.state && acked == r.confirmed
    {
      acked := [];
      if inp.reading.Some? {
        buffer := buffer + [inp.reading.value];
        if |buffer| >= bufferSize {
          if inp.online {
            var result, _ := SendGpsDataBatch(BufferBatch(buffer), inp.replies);
            if result == Returned(true) {
              acked := buffer;
              buffer := [];
            } else {
              FlushBuffer();
            }
          } else {
            FlushBuffer();
          }
        }
      }
    }

    /** One tick of the loop in `run_gps_tracker`. It returns how the tick ended
        and the readings whose delivery the collector confirmed. */
    method Tick(inp: Inputs) returns (outcome: Outcome, acked: seq<Reading>)
      requires Valid()
      modifies this, store
      ensures Valid()
      ensures var r := TickSpec(bufferSize, old(View()), inp);
        outcome == r.outcome && View() == r.state && acked == r.confirmed
    {
      acked := CollectReading(inp);
      if inp.onlineForBacklog && store.rows != [] {
        StoredBatchRaises(store.rows);
      }
      var aborted := SendStoredData(inp.onlineForBacklog, inp.backlogReplies);
      outcome := if aborted then Aborted else Done;
    }
  }
}
