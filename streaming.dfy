/**
 * Stream orchestration: a processor that feeds every event of a source
 * through the ETL step on its own and hands the result to an ordered list
 * of handlers, and a buffer that decides when a batch is due by size or by
 * elapsed time.
 *
 * The source is a finite sequence of events together with the way the
 * stream ends; handlers are opaque identities, and a handler call is
 * recorded in a log. The clock is a parameter.
 */
module Streaming {
  import opened Wrappers
  import opened Python
  import opened EtlPipeline

  /** An opaque registered callable. */
  type HandlerId = nat

  /** One handler invocation and the message it received. */
  datatype Call = Call(handler: HandlerId, message: map<string, Value>)

  /** `{"raw": event, "processed": processed[0].__dict__ if processed else None}` */
  function HandlerMessage(event: map<string, Value>, processed: seq<ProcessedReading>): map<string, Value> {
    map["raw" := Dict(event), "processed" := if processed != [] then Dict(ReadingFields(processed[0])) else Null]
  }

  /** Every handler in registration order, each with message `m`. */
  function Calls(hs: seq<HandlerId>, m: map<string, Value>): (cs: seq<Call>)
    ensures |cs| == |hs|
    ensures forall j :: 0 <= j < |hs| ==> cs[j] == Call(hs[j], m)
  {
    if hs == [] then [] else Calls(hs[..|hs| - 1], m) + [Call(hs[|hs| - 1], m)]
  }

  /** The calls made for a sequence of messages: for each message, every handler in order. */
  function Fanout(hs: seq<HandlerId>, msgs: seq<map<string, Value>>): seq<Call> {
    if msgs == [] then [] else Fanout(hs, msgs[..|msgs| - 1]) + Calls(hs, msgs[|msgs| - 1])
  }

  /**
   * The fan-out is message-major: the call for message `i` and handler `j`
   * sits at position `i * |hs| + j`, so every message reaches every handler,
   * and the handlers see the messages in stream order.
   */
  lemma {:induction false} FanoutIndex(hs: seq<HandlerId>, msgs: seq<map<string, Value>>, i: nat, j: nat)
    requires i < |msgs| && j < |hs|
    ensures |Fanout(hs, msgs)| == |msgs| * |hs|
    ensures i * |hs| + j < |msgs| * |hs|
    ensures Fanout(hs, msgs)[i * |hs| + j] == Call(hs[j], msgs[i])
  {
    var k := |msgs| - 1;
    var prefix := msgs[..k];
    var before := Fanout(hs, prefix);
    var last := Calls(hs, msgs[k]);
    assert Fanout(hs, msgs) == before + last;
    FanoutLength(hs, prefix);
    FanoutLength(hs, msgs);
    var p := i * |hs| + j;
    if i < k {
      FanoutIndex(hs, prefix, i, j);
      assert p < |before|;
      assert prefix[i] == msgs[i];
      assert Fanout(hs, msgs)[p] == before[p];
      PositionBelow(i, j, |msgs|, |hs|);
    } else {
      assert |before| == k * |hs|;
      assert p == |before| + j;
      assert Fanout(hs, msgs)[p] == last[j];
      PositionBelow(i, j, |msgs|, |hs|);
    }
  }

  /** Row `i`, column `j` of an `m`-by-`w` grid lies inside it. */
  lemma PositionBelow(i: nat, j: nat, m: nat, w: nat)
    requires i < m && j < w
    ensures i * w + j < m * w
  {
    MulMonotone(i + 1, m, w);
    assert (i + 1) * w == i * w + w;
  }

  lemma FanoutSnoc(hs: seq<HandlerId>, msgs: seq<map<string, Value>>, m: map<string, Value>)
    ensures Fanout(hs, msgs + [m]) == Fanout(hs, msgs) + Calls(hs, m)
  {
    assert (msgs + [m])[..|msgs|] == msgs;
  }

  lemma {:induction false} FanoutLength(hs: seq<HandlerId>, msgs: seq<map<string, Value>>)
    ensures |Fanout(hs, msgs)| == |msgs| * |hs|
  {
    if msgs != [] {
      FanoutLength(hs, msgs[..|msgs| - 1]);
      assert (|msgs| - 1) * |hs| + |hs| == |msgs| * |hs|;
    }
  }

  /** The persistence failures of one single-event batch: index 0 fails when event `i` of the stream does. */
  function OneFails(i: nat, persistFails: set<nat>): set<nat> {
    if i in persistFails then {0} else {}
  }

  /**
   * The stream on windows `w`: every event is processed as a batch of one,
   * and one message per event is built from what that batch returned.
   * The result is the final windows and the messages in stream order.
   */
  function StreamRun(w: Windows, n: nat, events: seq<map<string, Value>>, persistFails: set<nat>): (r: (Windows, seq<map<string, Value>>))
    ensures |r.1| == |events|
  {
    if events == [] then (w, [])
    else
      var i := |events| - 1;
      var (w1, msgs) := StreamRun(w, n, events[..i], persistFails);
      var (w2, out) := Batch(w1, n, [events[i]], OneFails(i, persistFails));
      (w2, msgs + [HandlerMessage(events[i], out)])
  }

  lemma StreamRunStep(w: Windows, n: nat, events: seq<map<string, Value>>, persistFails: set<nat>, i: nat)
    requires i < |events|
    ensures var (w1, msgs) := StreamRun(w, n, events[..i], persistFails);
      var (w2, out) := Batch(w1, n, [events[i]], OneFails(i, persistFails));
      StreamRun(w, n, events[..i + 1], persistFails) == (w2, msgs + [HandlerMessage(events[i], out)])
  {
    assert events[..i + 1][..i] == events[..i];
  }

  /** A batch of one event: the windows move as for that event, and its reading is returned unless it failed. */
  lemma BatchOfOne(w: Windows, n: nat, e: map<string, Value>, persistFails: set<nat>)
    ensures var (w', res) := ProcessEvent(w, n, e);
      Batch(w, n, [e], persistFails) == (w', if res.Ok? && 0 !in persistFails then [res.value] else [])
  {
    assert [e][..0] == [];
    var res := ProcessEvent(w, n, e).1;
    var out: seq<ProcessedReading> := if res.Ok? && 0 !in persistFails then [res.value] else [];
    assert [] + out == out;
  }

  /** Feeding the events one at a time moves the windows exactly as one batch of all of them would. */
  lemma {:induction false} StreamRunWindows(w: Windows, n: nat, events: seq<map<string, Value>>, persistFails: set<nat>)
    ensures StreamRun(w, n, events, persistFails).0 == Batch(w, n, events, persistFails).0
  {
    if events != [] {
      var i := |events| - 1;
      StreamRunWindows(w, n, events[..i], persistFails);
      BatchOfOne(Batch(w, n, events[..i], persistFails).0, n, events[i], OneFails(i, persistFails));
    }
  }

  /** The message each event's outcome calls for: its reading when it succeeded, None otherwise. */
  function MessagesFor(events: seq<map<string, Value>>, o: seq<Result<ProcessedReading, EventError>>): (ms: seq<map<string, Value>>)
    requires |o| == |events|
    ensures |ms| == |events|
  {
    if events == [] then []
    else
      var i := |events| - 1;
      MessagesFor(events[..i], o[..i]) + [HandlerMessage(events[i], if o[i].Ok? then [o[i].value] else [])]
  }

  lemma {:induction false} MessagesForIndex(events: seq<map<string, Value>>, o: seq<Result<ProcessedReading, EventError>>, k: nat)
    requires |o| == |events| && k < |events|
    ensures MessagesFor(events, o)[k] == HandlerMessage(events[k], if o[k].Ok? then [o[k].value] else [])
  {
    var i := |events| - 1;
    if k < i {
      MessagesForIndex(events[..i], o[..i], k);
    }
  }

  /**
   * The message for each event carries the reading exactly when that event
   * succeeded: `processed` is None for every event the ETL step skipped or
   * failed to persist.
   */
  lemma {:induction false} StreamRunMessages(w: Windows, n: nat, events: seq<map<string, Value>>, persistFails: set<nat>)
    ensures StreamRun(w, n, events, persistFails).1 == MessagesFor(events, Outcomes(w, n, events, persistFails))
  {
    if events != [] {
      var i := |events| - 1;
      var prefix := events[..i];
      StreamRunMessages(w, n, prefix, persistFails);
      StreamRunWindows(w, n, prefix, persistFails);
      BatchOfOne(Batch(w, n, prefix, persistFails).0, n, events[i], OneFails(i, persistFails));
      LastStep(w, n, events, persistFails);
      var o := Outcomes(w, n, events, persistFails);
      assert o[..i] == Outcomes(w, n, prefix, persistFails);
    }
  }

  /** A message carries `processed = None` exactly when the ETL step returned nothing. */
  lemma HandlerMessageProcessed(event: map<string, Value>, processed: seq<ProcessedReading>)
    ensures HandlerMessage(event, processed).Keys == {"raw", "processed"}
    ensures HandlerMessage(event, processed)["raw"] == Dict(event)
    ensures HandlerMessage(event, processed)["processed"] == Null <==> processed == []
  {
  }

  /** How the source's event stream ends. */
  datatype StreamEnd =
    | Exhausted           // the source yields every event and stops
    | CancelledAt(k: nat) // processing is cancelled while waiting for event `k`
    | FailedAt(k: nat)    // reading event `k` raises an ordinary exception

  /** The number of events the processor reads before the stream ends. */
  function Consumed(events: seq<map<string, Value>>, end: StreamEnd): (k: nat)
    ensures k <= |events|
  {
    match end
    case Exhausted => |events|
    case CancelledAt(c) => if c < |events| then c else |events|
    case FailedAt(c) => if c < |events| then c else |events|
  }

  /** What `start()` does once it returns or raises. */
  datatype StartOutcome =
    | ConnectFailed  // `connect()` raised; nothing else happened
    | Finished       // the stream ended or was cancelled
    | SourceRaised   // the source raised; the error propagates after `stop()`

  class StreamProcessor {
    const etl: PathwayEtlPipeline
    var handlers: seq<HandlerId>
    var running: bool
    /** Whether `source.close()` was called. */
    var sourceClosed: bool
    /** Every handler invocation so far, in order. */
    var calls: seq<Call>

    constructor (etl: PathwayEtlPipeline)
      ensures this.etl == etl
      ensures handlers == [] && !running && !sourceClosed && calls == []
    {
      this.etl := etl;
      handlers, running, sourceClosed, calls := [], false, false, [];
    }

    /** `add_handler(handler)` */
    method AddHandler(h: HandlerId)
      modifies this
      ensures handlers == old(handlers) + [h]
      ensures running == old(running) && sourceClosed == old(sourceClosed) && calls == old(calls)
    {
      handlers := handlers + [h];
    }

    /** `_call_handler(handler, message)`: the call happens, and whatever the handler raises is swallowed. */
    method CallHandler(h: HandlerId, message: map<string, Value>, raises: bool)
      modifies this
      ensures calls == old(calls) + [Call(h, message)]
      ensures handlers == old(handlers) && running == old(running) && sourceClosed == old(sourceClosed)
    {
      calls := calls + [Call(h, message)];
      if raises {
        // the exception is logged and dropped
      }
    }

    /** `stop()` */
    method Stop()
      modifies this
      ensures !running && sourceClosed
      ensures handlers == old(handlers) && calls == old(calls)
    {
      running := false;
      sourceClosed := true;
    }

    /** The `for handler in self.handlers` loop of `start()` for event `i`: every handler, in order. */
    method CallHandlers(message: map<string, Value>, i: nat, handlerFails: set<(nat, nat)>)
      modifies this
      ensures calls == old(calls) + Calls(handlers, message)
      ensures handlers == old(handlers) && running == old(running) && sourceClosed == old(sourceClosed)
    {
      var j := 0;
      while j < |handlers|
        invariant 0 <= j <= |handlers|
        invariant handlers == old(handlers) && running == old(running) && sourceClosed == old(sourceClosed)
        invariant calls == old(calls) + Calls(handlers[..j], message)
      {
        assert handlers[..j + 1][..j] == handlers[..j];
        CallHandler(handlers[j], message, (i, j) in handlerFails);
        j := j + 1;
      }
      assert handlers[..|handlers|] == handlers;
    }

    /**
     * The `async for` loop of `start()` over the events the source yields:
     * each goes through the ETL step as a batch of one, and its message goes
     * to every handler.
     */
    method ProcessEvents(events: seq<map<string, Value>>, persistFails: set<nat>, handlerFails: set<(nat, nat)>)
      requires etl.Valid()
      modifies this, etl
      ensures etl.Valid()
      ensures handlers == old(handlers) && running == old(running) && sourceClosed == old(sourceClosed)
      ensures etl.Current() == StreamRun(old(etl.Current()), etl.windowSize, events, persistFails).0
      ensures calls == old(calls) + Fanout(handlers, StreamRun(old(etl.Current()), etl.windowSize, events, persistFails).1)
    {
      var n := etl.windowSize;
      ghost var w0 := etl.Current();
      ghost var c0 := calls;
      var i := 0;
      assert events[..0] == [];
      while i < |events|
        invariant 0 <= i <= |events|
        invariant etl.Valid()
        invariant handlers == old(handlers) && running == old(running) && sourceClosed == old(sourceClosed)
        invariant etl.Current() == StreamRun(w0, n, events[..i], persistFails).0
        invariant calls == c0 + Fanout(handlers, StreamRun(w0, n, events[..i], persistFails).1)
      {
        StreamRunStep(w0, n, events, persistFails, i);
        ghost var msgs := StreamRun(w0, n, events[..i], persistFails).1;
        var processed := etl.ProcessBatch([events[i]], OneFails(i, persistFails));
        var message := HandlerMessage(events[i], processed);
        CallHandlers(message, i, handlerFails);
        FanoutSnoc(handlers, msgs, message);
        SeqAssoc(c0, Fanout(handlers, msgs), Calls(handlers, message));
        i := i + 1;
      }
      assert events[..|events|] == events;
    }

    /**
     * `start()` over a finite source. `persistFails` gives the stream
     * positions whose persistence raises, `handlerFails` the (event, handler
     * position) pairs whose handler raises.
     */
    method Start(events: seq<map<string, Value>>, end: StreamEnd, connectFails: bool,
                 persistFails: set<nat>, handlerFails: set<(nat, nat)>) returns (outcome: StartOutcome)
      requires etl.Valid()
      modifies this, etl
      ensures etl.Valid()
      ensures handlers == old(handlers)
      ensures connectFails ==> outcome == ConnectFailed && running == old(running)
                               && sourceClosed == old(sourceClosed) && calls == old(calls)
                               && etl.Current() == old(etl.Current())
      ensures !connectFails ==>
        var k := Consumed(events, end);
        var (w, msgs) := StreamRun(old(etl.Current()), etl.windowSize, events[..k], persistFails);
        outcome == (if end.FailedAt? && end.k <= |events| then SourceRaised else Finished)
        && !running && sourceClosed
        && etl.Current() == w
        && calls == old(calls) + Fanout(handlers, msgs)
    {
      if connectFails {
        return ConnectFailed;
      }
      running := true;
      var k := Consumed(events, end);
      ProcessEvents(events[..k], persistFails, handlerFails);
      Stop();
      outcome := if end.FailedAt? && end.k <= |events| then SourceRaised else Finished;
    }
  }

  class StreamBuffer {
    const maxSize: int
    const timeout: real
    var buffer: seq<map<string, Value>>
    var lastFlush: real
    /** Every event ever added, and how many of them earlier flushes returned. */
    ghost var added: seq<map<string, Value>>
    ghost var flushed: nat

    /** The buffer holds exactly the events added since the last flush. */
    ghost predicate Valid()
      reads this
    {
      flushed <= |added| && buffer == added[flushed..]
    }

    /** `StreamBuffer(max_size, timeout)` created at time `now`. */
    constructor (maxSize: int, timeout: real, now: real)
      ensures this.maxSize == maxSize && this.timeout == timeout
      ensures buffer == [] && lastFlush == now
      ensures Valid()
    {
      this.maxSize, this.timeout := maxSize, timeout;
      buffer, lastFlush := [], now;
      added, flushed := [], 0;
    }

    /** `add(event)` at time `now`: true when a flush is due. */
    method Add(event: map<string, Value>, now: real) returns (due: bool)
      requires Valid()
      modifies this
      ensures Valid()
      ensures buffer == old(buffer) + [event] && lastFlush == old(lastFlush)
      ensures added == old(added) + [event] && flushed == old(flushed)
      ensures due <==> |buffer| >= maxSize || now - lastFlush >= timeout
    {
      buffer := buffer + [event];
      added := added + [event];
      if |buffer| >= maxSize {
        return true;
      }
      if now - lastFlush >= timeout {
        return true;
      }
      return false;
    }

    /** `flush()` at time `now`: the events added since the last flush, oldest first. */
    method Flush(now: real) returns (result: seq<map<string, Value>>)
      requires Valid()
      modifies this
      ensures Valid()
      ensures result == old(added)[old(flushed)..]
      ensures buffer == [] && lastFlush == now
      ensures added == old(added) && flushed == |added|
    {
      result := buffer;
      buffer := [];
      flushed := |added|;
      lastFlush := now;
    }

    /** `is_empty()` */
    predicate IsEmpty()
      reads this
      requires Valid()
      ensures IsEmpty() <==> flushed == |added|
    {
      |buffer| == 0
    }
  }
}
