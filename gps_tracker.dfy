/** The tracker of gps_tracker.py: every tick handles one fix (or a timestamp-only
    heartbeat), sends it at once when the reachability probe says yes, otherwise
    (or when the send fails) buffers it; the buffer is then flushed to the store
    and the whole store is resent, all or nothing.

    The reachability probe, the collector's replies, the device-state bus and the
    clock are inputs of each tick (`Inputs`). */
module GpsTracker {
  import opened Common
  import opened LocalStore

  /** The seven-field tuple (lat, lon, altitude, accuracy, timestamp, speed,
      bearing). Its numbers are never computed on here, so they are kept as reals. */
  datatype Fix = Fix(lat: Option<real>, lon: Option<real>, altitude: Option<real>,
                     accuracy: Option<real>, timestamp: string, speed: Option<real>,
                     bearing: Option<real>)

  /** The tuple that stands in for a missing fix: only the timestamp is present. */
  function Heartbeat(now: string): Fix {
    Fix(None, None, None, None, now, None, None)
  }

  /** The query parameters of one request to the collector. */
  datatype Params = Params(deviceId: string, lat: Option<real>, lon: Option<real>,
                           altitude: Option<real>, accuracy: Option<real>,
                           timestamp: string, speed: Option<real>, bearing: real)

  /** A missing bearing is sent as 0. */
  function BearingOrZero(bearing: Option<real>): real {
    if bearing.Some? then bearing.value else 0.0
  }

  /** The parameter mapping of `Network.send_gps_data`. */
  function SendParams(deviceId: string, f: Fix): Params {
    Params(deviceId, f.lat, f.lon, f.altitude, f.accuracy, f.timestamp, f.speed,
           BearingOrZero(f.bearing))
  }

  /** The mapping loses nothing but the difference between a missing bearing and
      a bearing of 0: two fixes give the same request exactly when they agree on
      every field once a missing bearing is read as 0. */
  lemma SendParamsFaithful(deviceId: string, f: Fix, g: Fix)
    ensures SendParams(deviceId, f) == SendParams(deviceId, g) <==>
            f.(bearing := Some(BearingOrZero(f.bearing))) ==
            g.(bearing := Some(BearingOrZero(g.bearing)))
    ensures SendParams(deviceId, f).deviceId == deviceId
  {
  }

  /** The loop of `send_stored_data`: every fetched row is sent, in order, even
      after an earlier row failed; `success` is the AND of the per-row results. */
  method SendRows(deviceId: string, rows: seq<Row<Fix>>, replies: nat -> Response)
    returns (success: bool, requests: seq<Params>)
    ensures |requests| == |rows|
    ensures forall i :: 0 <= i < |rows| ==> requests[i] == SendParams(deviceId, rows[i].sample)
    ensures success <==> AllAccepted(replies, |rows|)
  {
    success := true;
    requests := [];
    for i := 0 to |rows|
      invariant |requests| == i
      invariant forall j :: 0 <= j < i ==> requests[j] == SendParams(deviceId, rows[j].sample)
      invariant success <==> AllAccepted(replies, i)
    {
      requests := requests + [SendParams(deviceId, rows[i].sample)];
      if !Accepted(replies(i)) {
        success := false;
      }
    }
  }

  /** What the world supplies to one tick of `GPSTrackerApp.run`. */
  datatype Inputs = Inputs(
    stateUpdated: bool,              // deviceState had a new message this tick
    started: bool,                   // the `started` flag of that message
    fix: Option<Fix>,                // what `get_gps_data` returned (read only when onroad)
    now: string,                     // the current UTC timestamp
    online: bool,                    // the probe before the immediate send
    reply: Response,                 // the collector's reply to the immediate send
    onlineForBacklog: bool,          // the probe in `send_stored_data`
    fetchFailed: bool,               // the fetch logged an sqlite error and returned None
    backlogReplies: nat -> Response) // the replies to the resent rows, in row order

  /** How a tick ends: the `return` that restarts the client, the `continue` of an
      offroad tick without a ping, an exception caught by the loop, or the full body. */
  datatype Outcome = Restart | Skipped | Failed | Done

  /** The state a tick changes: the global buffer, the samples in the store, and
      `offroad_count`. */
  datatype State = State(buffer: seq<Fix>, backlog: seq<Fix>, offroadCount: int)

  /** One tick's effect: the tuple it handled (if any) and the tuples whose
      delivery the collector confirmed during it. */
  datatype Step = Step(outcome: Outcome, state: State, sampled: seq<Fix>, confirmed: seq<Fix>)

  /** The decision an offroad tick takes on `offroad_count`. */
  datatype Gate = Ping(next: int) | Skip(next: int) | Raises

  /** The offroad gate as written. The factor is read from the same key as
      `UPDATE_FREQUENCY` (lines 21 and 24), so a negative factor makes
      `time.sleep` at line 274 raise before the gate is reached, and a zero
      factor makes the `%` at line 276 raise. Otherwise a count divisible by the
      factor pings and resets the count to 0, and any other count is incremented
      and the tick is skipped. */
  function OffroadGate(count: int, factor: int): (g: Gate)
    ensures g.Raises? <==> factor <= 0
    ensures g.Ping? <==> factor > 0 && count % factor == 0
    ensures g.Ping? ==> g.next == 0
    ensures g.Skip? ==> g.next == count + 1
  {
    if factor <= 0 then Raises
    else if count % factor == 0 then Ping(0)
    else Skip(count + 1)
  }

  /** The immediate send succeeded: the probe said yes and the reply was 200. */
  predicate SentNow(inp: Inputs) {
    inp.online && Accepted(inp.reply)
  }

  /** `send_stored_data` deletes a backlog of `n` rows: the probe said yes, the
      fetch returned rows, and every one of them was accepted. */
  predicate Drains(inp: Inputs, n: nat) {
    inp.onlineForBacklog && !inp.fetchFailed && n > 0 && AllAccepted(inp.backlogReplies, n)
  }

  /** The part of a tick after the tuple `f` is known: send or buffer it, flush
      the buffer into the store, then resend the store. Nothing is lost: every
      tuple that was buffered, stored or handled is afterwards stored or was
      confirmed by the collector, and the buffer is left empty. */
  function Handle(s: State, f: Fix, inp: Inputs): (r: Step)
    ensures r.outcome == Done && r.state.buffer == [] && r.sampled == [f]
    ensures r.state.offroadCount == s.offroadCount
    ensures multiset(s.buffer) + multiset(s.backlog) + multiset([f]) ==
            multiset(r.state.backlog) + multiset(r.confirmed)
  {
    var sent: seq<Fix> := if SentNow(inp) then [f] else [];
    var unsent: seq<Fix> := if SentNow(inp) then [] else [f];
    var pending := s.backlog + s.buffer + unsent;
    var drained := Drains(inp, |pending|);
    assert multiset(sent) + multiset(unsent) == multiset([f]);
    assert multiset(pending) == multiset(s.backlog) + multiset(s.buffer) + multiset(unsent);
    Step(Done, State([], if drained then [] else pending, s.offroadCount), [f],
         sent + (if drained then pending else []))
  }

  /** One tick of the loop in `GPSTrackerApp.run`, as a function of the state.
      Within one tick nothing is lost: every tuple that was buffered, stored or
      handled is afterwards still buffered or stored, or was confirmed by the
      collector. A completed tick handles exactly one tuple and leaves the buffer
      empty; any other tick changes neither the buffer nor the store. */
  function TickSpec(onroad: bool, factor: int, s: State, inp: Inputs): (r: Step)
    ensures multiset(s.buffer) + multiset(s.backlog) + multiset(r.sampled) ==
            multiset(r.state.buffer) + multiset(r.state.backlog) + multiset(r.confirmed)
    ensures r.outcome == Done ==> r.state.buffer == [] && |r.sampled| == 1
    ensures r.outcome != Done ==>
              r.sampled == [] && r.confirmed == [] &&
              r.state.buffer == s.buffer && r.state.backlog == s.backlog
  {
    if inp.stateUpdated && inp.started != onroad then Step(Restart, s, [], [])
    else if onroad then
      Handle(s, if inp.fix.Some? then inp.fix.value else Heartbeat(inp.now), inp)
    else
      match OffroadGate(s.offroadCount, factor)
      case Raises => Step(Failed, s, [], [])
      case Skip(next) => Step(Skipped, s.(offroadCount := next), [], [])
      case Ping(next) => Handle(s.(offroadCount := next), Heartbeat(inp.now), inp)
  }

  /** The store after a completed tick is all or nothing: either the old store
      followed, in order, by the old buffer and the unsent tuple, or empty, and
      empty only when the probe said yes and every stored row was accepted. */
  lemma TickStoreAllOrNothing(onroad: bool, factor: int, s: State, inp: Inputs)
    ensures var r := TickSpec(onroad, factor, s, inp);
      var pending := s.backlog + s.buffer + (if SentNow(inp) then [] else r.sampled);
      r.outcome == Done ==>
        (r.state.backlog == pending && r.confirmed == (if SentNow(inp) then r.sampled else [])) ||
        (r.state.backlog == [] && inp.onlineForBacklog && !inp.fetchFailed &&
         AllAccepted(inp.backlogReplies, |pending|))
  {
  }

  /** The tuple a completed tick handles: the fix when onroad and one arrived,
      otherwise exactly the heartbeat `(None, None, None, None, timestamp, None, None)`. */
  lemma TickSample(onroad: bool, factor: int, s: State, inp: Inputs)
    ensures var r := TickSpec(onroad, factor, s, inp);
      r.outcome == Done ==>
        r.sampled == [if onroad && inp.fix.Some? then inp.fix.value else Heartbeat(inp.now)]
  {
  }

  /** A change of the `started` flag ends the run before any tuple is handled. */
  lemma TickRestart(onroad: bool, factor: int, s: State, inp: Inputs)
    ensures var r := TickSpec(onroad, factor, s, inp);
      (r.outcome == Restart) <==> (inp.stateUpdated && inp.started != onroad)
    ensures var r := TickSpec(onroad, factor, s, inp);
      r.outcome == Restart ==> r.state == s && r.sampled == [] && r.confirmed == []
  {
  }

  /** From a zero count, the offroad gate never skips and the count stays 0. */
  lemma TickOffroadCountStaysZero(onroad: bool, factor: int, s: State, inp: Inputs)
    requires s.offroadCount == 0
    ensures var r := TickSpec(onroad, factor, s, inp);
      r.outcome != Skipped && r.state.offroadCount == 0
  {
  }

  /** A run of ticks until the client restarts or the inputs end. */
  datatype Trace = Trace(state: State, sampled: seq<Fix>, confirmed: seq<Fix>,
                         skips: nat, restarted: bool)

  function Run(onroad: bool, factor: int, s: State, ins: seq<Inputs>): (t: Trace)
    ensures |t.sampled| + t.skips <= |ins|
    ensures t.restarted ==> |t.sampled| + t.skips < |ins|
    decreases |ins|
  {
    if ins == [] then Trace(s, [], [], 0, false)
    else
      var r := TickSpec(onroad, factor, s, ins[0]);
      if r.outcome == Restart then Trace(s, [], [], 0, true)
      else
        var t := Run(onroad, factor, r.state, ins[1..]);
        Trace(t.state, r.sampled + t.sampled, r.confirmed + t.confirmed,
              t.skips + (if r.outcome == Skipped then 1 else 0), t.restarted)
  }

  /** Over any run, whatever the probe and the collector answer, every tuple ever
      handled is still buffered or stored, or was confirmed delivered. */
  lemma {:induction false} RunNoLoss(onroad: bool, factor: int, s: State, ins: seq<Inputs>)
    ensures var t := Run(onroad, factor, s, ins);
      multiset(s.buffer) + multiset(s.backlog) + multiset(t.sampled) ==
      multiset(t.state.buffer) + multiset(t.state.backlog) + multiset(t.confirmed)
    decreases |ins|
  {
    if ins != [] {
      var r := TickSpec(onroad, factor, s, ins[0]);
      if r.outcome != Restart {
        var t := Run(onroad, factor, r.state, ins[1..]);
        RunNoLoss(onroad, factor, r.state, ins[1..]);
        assert Run(onroad, factor, s, ins) ==
          Trace(t.state, r.sampled + t.sampled, r.confirmed + t.confirmed,
                t.skips + (if r.outcome == Skipped then 1 else 0), t.restarted);
        ComposeNoLoss(s.buffer, s.backlog, r.sampled, r.state.buffer, r.state.backlog, r.confirmed,
                      t.sampled, t.state.buffer, t.state.backlog, t.confirmed);
      }
    }
  }

  /** The offroad counter never advances: started at 0, as `run` does, it is 0
      after every tick and no tick ever takes the `continue` branch. */
  lemma {:induction false} RunOffroadCountStaysZero(onroad: bool, factor: int, s: State, ins: seq<Inputs>)
    requires s.offroadCount == 0
    ensures var t := Run(onroad, factor, s, ins);
      t.skips == 0 && t.state.offroadCount == 0
    decreases |ins|
  {
    if ins != [] {
      var r := TickSpec(onroad, factor, s, ins[0]);
      if r.outcome != Restart {
        TickOffroadCountStaysZero(onroad, factor, s, ins[0]);
        RunOffroadCountStaysZero(onroad, factor, r.state, ins[1..]);
      }
    }
  }

  /** A tick whose sends are all rejected confirms nothing and appends the tuple
      it handled to the store. */
  lemma TickAllRejected(onroad: bool, factor: int, s: State, inp: Inputs)
    requires s.buffer == []
    requires !Accepted(inp.reply) && !Accepted(inp.backlogReplies(0))
    ensures var r := TickSpec(onroad, factor, s, inp);
      r.confirmed == [] && r.state.buffer == [] && r.state.backlog == s.backlog + r.sampled
  {
    var r := TickSpec(onroad, factor, s, inp);
    if r.outcome == Done {
      assert !AllAccepted(inp.backlogReplies, |s.backlog| + 1);
    }
  }

  /** When the collector rejects every send, the store accumulates every handled
      tuple, in the order the ticks handled them, and nothing is confirmed. */
  lemma {:induction false} RunAllRejected(onroad: bool, factor: int, s: State, ins: seq<Inputs>)
    requires s.buffer == []
    requires forall k :: 0 <= k < |ins| ==> !Accepted(ins[k].reply) && !Accepted(ins[k].backlogReplies(0))
    ensures var t := Run(onroad, factor, s, ins);
      t.confirmed == [] && t.state.buffer == [] && t.state.backlog == s.backlog + t.sampled
    decreases |ins|
  {
    if ins != [] {
      var r := TickSpec(onroad, factor, s, ins[0]);
      if r.outcome != Restart {
        TickAllRejected(onroad, factor, s, ins[0]);
        var rest := ins[1..];
        assert forall k :: 0 <= k < |rest| ==> rest[k] == ins[k + 1];
        RunAllRejected(onroad, factor, r.state, rest);
        var t := Run(onroad, factor, r.state, rest);
        assert Run(onroad, factor, s, ins) ==
          Trace(t.state, r.sampled + t.sampled, r.confirmed + t.confirmed,
                t.skips + (if r.outcome == Skipped then 1 else 0), t.restarted);
        AppendAssoc(s.backlog, r.sampled, t.sampled);
      }
    }
  }

  /** The offroad gate as the comment on OFFROAD_UPDATE_FACTOR intends it: every
      offroad tick advances the count, and a ping is sent on every `factor`-th one. */
  function IntendedGate(count: int, factor: int): Gate
    requires factor >= 1
  {
    if count % factor == 0 then Ping(count + 1) else Skip(count + 1)
  }

  /** The count after `k` offroad ticks of the intended gate, started at 0. */
  function IntendedCountAfter(k: nat, factor: int): int
    requires factor >= 1
  {
    if k == 0 then 0 else IntendedGate(IntendedCountAfter(k - 1, factor), factor).next
  }

  /** The intended gate pings on offroad tick `k` exactly when `k` is a multiple
      of the factor, so the offroad period is the update period times the factor. */
  lemma {:induction false} IntendedGatePingsEveryFactor(k: nat, factor: int)
    requires factor >= 1
    ensures IntendedCountAfter(k, factor) == k
    ensures IntendedGate(IntendedCountAfter(k, factor), factor).Ping? <==> k % factor == 0
  {
    if k > 0 {
      IntendedGatePingsEveryFactor(k - 1, factor);
    }
  }

  /** The gate as written pings on the second offroad tick, where the intended
      gate skips whenever the factor exceeds 1. */
  lemma OffroadGateDiffers(factor: int)
    requires factor >= 2
    ensures OffroadGate(OffroadGate(0, factor).next, factor).Ping?
    ensures IntendedGate(IntendedGate(0, factor).next, factor).Skip?
  {
  }

  /** The process state of gps_tracker.py: the global buffer, the store, and the
      locals of `run` (`onroad`, read once at start, and `offroad_count`). */
  class Tracker {
    var buffer: seq<Fix>
    var offroadCount: int
    const store: Store<Fix>
    const onroad: bool
    const factor: int
    const deviceId: string

    ghost predicate Valid()
      reads this, store
    {
      store.Valid()
    }

    /** The abstract state `TickSpec` works on. */
    function View(): State
      reads this, store
    {
      State(buffer, Samples(store.rows), offroadCount)
    }

    /** The start of `run`: an empty buffer, `offroad_count = 0`, and the store
        left by earlier runs. */
    constructor (store: Store<Fix>, deviceId: string, onroad: bool, factor: int)
      requires store.Valid()
      ensures Valid()
      ensures this.store == store && this.deviceId == deviceId
      ensures this.onroad == onroad && this.factor == factor
      ensures buffer == [] && offroadCount == 0
    {
      this.store := store;
      this.deviceId := deviceId;
      this.onroad := onroad;
      this.factor := factor;
      buffer := [];
      offroadCount := 0;
    }

    /** `flush_buffer`: stores every buffered tuple, in buffer order, then empties
        the buffer; nothing else in the store changes. */
    method FlushBuffer()
      requires Valid()
      modifies this, store
      ensures Valid()
      ensures buffer == [] && offroadCount == old(offroadCount)
      ensures Samples(store.rows) == old(Samples(store.rows)) + old(buffer)
      ensures store.rows[..|old(store.rows)|] == old(store.rows)
    {
      for i := 0 to |buffer|
        invariant store.Valid()
        invariant buffer == old(buffer) && offroadCount == old(offroadCount)
        invariant Samples(store.rows) == old(Samples(store.rows)) + buffer[..i]
        invariant |old(store.rows)| <= |store.rows| && store.rows[..|old(store.rows)|] == old(store.rows)
      {
        store.Insert(buffer[i]);
      }
      buffer := [];
    }

    /** `send_stored_data`: when the probe says yes and the fetch returns rows,
        every row is resent; all rows are deleted only when every one was
        accepted, and otherwise the store is unchanged. */
    method SendStoredData(online: bool, fetchFailed: bool, replies: nat -> Response)
      returns (cleared: bool, requests: seq<Params>)
      requires Valid()
      modifies store
      ensures Valid()
      ensures cleared <==> online && !fetchFailed && old(store.rows) != [] &&
                           AllAccepted(replies, |old(store.rows)|)
      ensures store.rows == (if cleared then [] else old(store.rows))
      ensures store.nextId == old(store.nextId)
      ensures |requests| == (if online && !fetchFailed then |old(store.rows)| else 0)
      ensures forall i :: 0 <= i < |requests| ==>
                requests[i] == SendParams(deviceId, old(store.rows)[i].sample)
    {
      cleared, requests := false, [];
      if online {
        // On an sqlite error the fetch logs and returns None, which is falsy like [].
        var stored: seq<Row<Fix>> := [];
        if !fetchFailed {
          stored := store.FetchAll();
        }
        if stored != [] {
          var success;
          success, requests := SendRows(deviceId, stored, replies);
          if success {
            store.DeleteAll();
            cleared := true;
          }
        }
      }
    }

    /** Lines 300-347 for the tuple `data`: send it when the probe says yes,
        buffer it when the probe says no or the send fails, flush the buffer,
        then resend the store. */
    method HandleTuple(data: Fix, inp: Inputs) returns (acked: seq<Fix>)
      requires Valid()
      modifies this, store
      ensures Valid()
      ensures var r := Handle(old(View()), data, inp);
        View() == r.state && acked == r.confirmed
    {
      ghost var s0 := View();
      var sent: seq<Fix> := [];
      if inp.online {
        if !Accepted(inp.reply) {
          buffer := buffer + [data];
        } else {
          sent := [data];
        }
      } else {
        buffer := buffer + [data];
      }
      ghost var unsent: seq<Fix> := if SentNow(inp) then [] else [data];
      assert buffer == s0.buffer + unsent;
      if buffer != [] {
        FlushBuffer();
      }
      var stored := store.rows;
      AppendAssoc(s0.backlog, s0.buffer, unsent);
      assert Samples(stored) == s0.backlog + s0.buffer + unsent;
      var cleared, _ := SendStoredData(inp.onlineForBacklog, inp.fetchFailed, inp.backlogReplies);
      acked := sent + (if cleared then Samples(stored) else []);
    }

    /** One tick of the loop in `run`. It returns how the tick ended and the
        tuples whose delivery the collector confirmed. */
    method Tick(inp: Inputs) returns (outcome: Outcome, acked: seq<Fix>)
      requires Valid()
      modifies this, store
      ensures Valid()
      ensures var r := TickSpec(onroad, factor, old(View()), inp);
        outcome == r.outcome && View() == r.state && acked == r.confirmed
    {
      ghost var s0 := View();
      if inp.stateUpdated && inp.started != onroad {
        return Restart, [];
      }
      var gpsData: Option<Fix>;
      if onroad {
        gpsData := inp.fix;
      } else {
        if factor <= 0 {
          // A negative `UPDATE_FREQUENCY` makes `time.sleep` raise ValueError, and
          // `offroad_count % 0` raises ZeroDivisionError; the loop catches both.
          return Failed, [];
        }
        if offroadCount % factor == 0 {
          offroadCount := 0;
          gpsData := None;
        } else {
          offroadCount := offroadCount + 1;
          return Skipped, [];
        }
      }
      var data := if gpsData.Some? then gpsData.value else Heartbeat(inp.now);
      assert TickSpec(onroad, factor, s0, inp) == Handle(View(), data, inp);
      acked := HandleTuple(data, inp);
      outcome := Done;
    }
  }
}
